/**
 * The prompt and reply shaping of services/gemini_service.py around the three
 * model calls (chat reply, SOAP note, structured summary). The model provider
 * itself is an oracle: a function from the request to a reply or a failure.
 */
module GeminiService {
  import opened Common
  import opened Schemas

  /** `SYSTEM_PROMPT`, the fixed instruction text every chat request starts with. */
  const SystemPromptText: string :=
    "\n"
    + "You are SageAI, a sophisticated and empathetic AI Medical Advisor. Your primary role is to provide safe, informative, and helpful guidance by deeply analyzing and synthesizing information from real-time web searches.\n"
    + "\n"
    + "---\n"
    + "**Primary Directive: Contextual Safety and Information Synthesis**\n"
    + "---\n"
    + "\n"
    + "**1. Contextual Disclaimer Protocol (CRITICAL):**\n"
    + "Your most important task is to understand the user's intent before responding.\n"
    + "\n"
    + "*   A \"Medical Intent Query\" involves: Symptoms (e.g., \"headache,\" \"dizzy\"), conditions (\"what is diabetes\"), medications (\"lisinopril side effects\"), or treatments.\n"
    + "*   A \"Non-Medical Query\" includes: Greetings (\"hello\", \"hi\"), conversational filler (\"thanks\"), or questions about you (\"who are you?\").\n"
    + "\n"
    + "*   **RULE:** You MUST apply a disclaimer **ONLY** for \"Medical Intent Queries\". **NEVER** use a disclaimer for a \"Non-Medical Query\".\n"
    + "    *   **For the VERY FIRST Medical Intent Query in a conversation:** Begin your response with the full disclaimer: *\"As an AI assistant, I cannot provide medical advice. This information is for educational purposes only. Please consult with a qualified healthcare professional for any health concerns.\"*\n"
    + "    *   **For SUBSEQUENT Medical Intent Queries in the same conversation:** You may use a shorter, less intrusive reminder if appropriate, such as *\"Remember, it's always best to discuss any health concerns with your doctor.\"*\n"
    + "\n"
    + "**2. Information Synthesis and Search Protocol:**\n"
    + "When the user asks a medical question, do not just list facts. Your goal is to provide a comprehensive, easy-to-understand synthesis.\n"
    + "\n"
    + "*   **Deep Synthesis:** Your response must be a synthesis of information from MULTIPLE reputable sources found via your Google Search tool. Prioritize well-known health organizations (e.g., Mayo Clinic, NHS, WebMD, Cleveland Clinic).\n"
    + "*   **Logical Structure:** Structure your answers logically. A good structure for a condition might be:\n"
    + "    *   A simple **overview** of what it is.\n"
    + "    *   A list of **common symptoms**.\n"
    + "    *   A summary of **potential causes**.\n"
    + "    *   A clear, actionable section on **\"When to See a Doctor\"**.\n"
    + "*   **Explain, Don't Just State:** Explain complex medical terms in simple language. For example, instead of just saying \"intracranial hypertension,\" you might say \"intracranial hypertension, which is a condition of increased pressure around the brain.\"\n"
    + "*   **Grounding:** Your entire medical explanation MUST be grounded in the information you find through your search tool. The system will automatically attach the source links as citations.\n"
    + "\n"
    + "**3. Other Protocols:**\n"
    + "*   **Location Queries:** If asked for \"nearby hospitals,\" you MUST respond by stating that you need their location.\n"
    + "*   **Contextual Continuity:** Use the provided conversation history to provide relevant follow-up information and avoid repeating yourself.\n"

  const ApologyText := "I'm sorry, I encountered a technical issue. Please try again shortly."
  const DefaultProfileSection := "The user has not provided any specific health information."
  const ProfileHeader := "You MUST consider the following user health profile in your response:\n"
  const ContextHeading := "**User's Personal Health Context:**"

  /** How many history messages go with a chat request. */
  const ContextWindowSize := 5

  // ---------------------------------------------------------------- request shaping

  /** One entry of the request's `contents`: a role and its single text part. */
  datatype Content = Content(role: string, text: string)

  /** The provider's role name for a stored message role. */
  function ProviderRole(role: string): (r: string)
    ensures r == "model" <==> role == "assistant"
    ensures r == "model" || r == "user"
  {
    if role == "assistant" then "model" else "user"
  }

  /** `history[-5:]`: the last five messages, or all of them when there are fewer. */
  function ContextWindow(history: seq<ChatMessage>): (w: seq<ChatMessage>)
    ensures |w| == if |history| < ContextWindowSize then |history| else ContextWindowSize
    ensures forall i :: 0 <= i < |w| ==> w[i] == history[|history| - |w| + i]
  {
    if |history| <= ContextWindowSize then history else history[|history| - ContextWindowSize..]
  }

  /**
   * The request `contents`: the context window in order, each message under its
   * provider role, then the prompt as the final user entry.
   */
  function ChatContents(prompt: string, history: seq<ChatMessage>): (c: seq<Content>)
    ensures 1 <= |c| <= ContextWindowSize + 1
    ensures |c| == 1 + (if |history| < ContextWindowSize then |history| else ContextWindowSize)
    ensures c[|c| - 1] == Content("user", prompt)
    ensures forall i :: 0 <= i < |c| - 1 ==>
      var m := history[|history| - (|c| - 1) + i];
      c[i] == Content(ProviderRole(m.role), m.content)
  {
    var w := ContextWindow(history);
    seq(|w|, i requires 0 <= i < |w| => Content(ProviderRole(w[i].role), w[i].content))
      + [Content("user", prompt)]
  }

  // ---------------------------------------------------------------- citations

  /** The `web` part of a grounding chunk: its uri and its title, either of which may be None. */
  datatype WebSource = WebSource(uri: Option<string>, title: Option<string>)

  /** A grounding chunk of the reply; `web` is None for a chunk that does not come from the web. */
  datatype GroundingChunk = GroundingChunk(web: Option<WebSource>)

  /**
   * The chunk can be cited: reading `chunk.web.uri` does not raise and gives
   * a string, as `SourceCitation.url` requires.
   */
  predicate Citable(chunk: GroundingChunk)
  {
    chunk.web.Some? && chunk.web.value.uri.Some?
  }

  predicate AllCitable(chunks: seq<GroundingChunk>)
  {
    forall k :: 0 <= k < |chunks| ==> Citable(chunks[k])
  }

  /** A title is used when present and not empty; otherwise the placeholder `Source [n]`. */
  function CitationTitle(web: WebSource, i: nat): string
  {
    if web.title.Some? && web.title.value != "" then web.title.value
    else "Source [" + NatToString(i + 1) + "]"
  }

  /** The citations of a reply's grounding chunks, in chunk order, numbered from 1. */
  function Citations(chunks: seq<GroundingChunk>): (cs: seq<SourceCitation>)
    requires AllCitable(chunks)
    ensures |cs| == |chunks|
    ensures forall i :: 0 <= i < |cs| ==>
      cs[i] == SourceCitation(chunks[i].web.value.uri.value, CitationTitle(chunks[i].web.value, i), i + 1)
  {
    seq(|chunks|, i requires 0 <= i < |chunks| =>
      SourceCitation(chunks[i].web.value.uri.value, CitationTitle(chunks[i].web.value, i), i + 1))
  }

  /**
   * The citation of chunk i (the last one and a lone one included) carries
   * the chunk's uri and the number i+1; a chunk whose title is missing or
   * empty is cited as `Source [i+1]`, any other keeps its title.
   */
  lemma CitationAt(chunks: seq<GroundingChunk>, i: nat)
    requires AllCitable(chunks) && i < |chunks|
    ensures i < |Citations(chunks)|
    ensures Citations(chunks)[i].index == i + 1 && Some(Citations(chunks)[i].url) == chunks[i].web.value.uri
    ensures chunks[i].web.value.title.None? || chunks[i].web.value.title == Some("") ==>
      Citations(chunks)[i].title == "Source [" + NatToString(i + 1) + "]"
    ensures chunks[i].web.value.title.Some? && chunks[i].web.value.title.value != "" ==>
      Citations(chunks)[i].title == chunks[i].web.value.title.value
  {
  }

  /** Citation numbers strictly increase along the list, so no two citations share one. */
  lemma CitationsIncreasing(chunks: seq<GroundingChunk>)
    requires AllCitable(chunks)
    ensures forall i, j :: 0 <= i < j < |Citations(chunks)| ==> Citations(chunks)[i].index < Citations(chunks)[j].index
  {
  }

  /**
   * The citation loop of `get_ai_response`: None when some chunk cannot be
   * cited, where the source raises out of the loop.
   */
  method BuildCitations(chunks: seq<GroundingChunk>) returns (cs: Option<seq<SourceCitation>>)
    ensures cs.Some? <==> AllCitable(chunks)
    ensures cs.Some? ==> cs.value == Citations(chunks)
  {
    var built := [];
    var i := 0;
    while i < |chunks|
      invariant 0 <= i <= |chunks|
      invariant AllCitable(chunks[..i])
      invariant built == Citations(chunks[..i])
    {
      if chunks[i].web.None? || chunks[i].web.value.uri.None? {
        assert !Citable(chunks[i]);
        return None;
      }
      var web := chunks[i].web.value;
      var title := if web.title.Some? && web.title.value != "" then web.title.value
                   else "Source [" + NatToString(i + 1) + "]";
      built := built + [SourceCitation(web.uri.value, title, i + 1)];
      i := i + 1;
      assert chunks[..i][..i - 1] == chunks[..i - 1];
    }
    assert chunks[..i] == chunks;
    cs := Some(built);
  }

  // ---------------------------------------------------------------- system prompt

  /** Python truthiness of the optional profile fields. */
  predicate IntTruthy(x: Option<int>) { x.Some? && x.value != 0 }
  predicate TextTruthy(x: Option<string>) { x.Some? && x.value != "" }
  predicate ListTruthy(x: Option<seq<string>>) { x.Some? && x.value != [] }

  /** The profile has at least one field `get_system_prompt` reports. */
  predicate HasHealthFields(p: Profile)
  {
    IntTruthy(p.age) || TextTruthy(p.gender) || IntTruthy(p.weightKg) || IntTruthy(p.heightCm)
    || ListTruthy(p.allergies) || ListTruthy(p.previousIssues) || ListTruthy(p.currentMedications)
  }

  function LineIf(present: bool, line: string): seq<string>
  {
    if present then [line] else []
  }

  function ListLine(heading: string, items: Option<seq<string>>): string
  {
    heading + (if items.Some? then Join(", ", items.value) else "")
  }

  function AgeLine(p: Profile): string
  {
    "- Age: " + IntToString(if p.age.Some? then p.age.value else 0)
  }

  function GenderLine(p: Profile): string
  {
    "- Gender: " + (if p.gender.Some? then p.gender.value else "")
  }

  function WeightLine(p: Profile): string
  {
    "- Weight: " + IntToString(if p.weightKg.Some? then p.weightKg.value else 0) + " kg"
  }

  function HeightLine(p: Profile): string
  {
    "- Height: " + IntToString(if p.heightCm.Some? then p.heightCm.value else 0) + " cm"
  }

  /** Whether the `i`-th field in reporting order (age, gender, weight, height, allergies, issues, medications) is truthy. */
  predicate Reported(p: Profile, i: nat)
  {
    match i
    case 0 => IntTruthy(p.age)
    case 1 => TextTruthy(p.gender)
    case 2 => IntTruthy(p.weightKg)
    case 3 => IntTruthy(p.heightCm)
    case 4 => ListTruthy(p.allergies)
    case 5 => ListTruthy(p.previousIssues)
    case 6 => ListTruthy(p.currentMedications)
    case _ => false
  }

  /** The line of the `i`-th field in reporting order; lists are joined by ", ". */
  function FieldLine(p: Profile, i: nat): string
  {
    match i
    case 0 => AgeLine(p)
    case 1 => GenderLine(p)
    case 2 => WeightLine(p)
    case 3 => HeightLine(p)
    case 4 => ListLine("- Known Allergies: ", p.allergies)
    case 5 => ListLine("- Previous Medical Issues: ", p.previousIssues)
    case 6 => ListLine("- Current Medications: ", p.currentMedications)
    case _ => ""
  }

  /** The lines of the first `n` fields in reporting order: each truthy one appended in turn. */
  function LinesUpTo(p: Profile, n: nat): seq<string>
  {
    if n == 0 then [] else LinesUpTo(p, n - 1) + LineIf(Reported(p, n - 1), FieldLine(p, n - 1))
  }

  /** The profile lines: one per truthy field, in the fixed reporting order. */
  function ProfileLines(p: Profile): seq<string>
  {
    LinesUpTo(p, 7)
  }

  function ProfileSection(p: Profile): string
  {
    var lines := ProfileLines(p);
    if lines == [] then DefaultProfileSection else ProfileHeader + Join("\n", lines)
  }

  /** The layout of the system instruction around a profile section. */
  function AssemblePrompt(base: string, section: string): string
  {
    base + "\n---\n" + ContextHeading + "\n" + section + "\n---"
  }

  /** The system instruction of a chat request for this profile. */
  function SystemPromptFor(p: Profile): string
  {
    AssemblePrompt(SystemPromptText, ProfileSection(p))
  }

  /** How many of the first `i` fields in reporting order are truthy. */
  function ReportedBefore(p: Profile, i: nat): nat
  {
    if i == 0 then 0 else ReportedBefore(p, i - 1) + (if Reported(p, i - 1) then 1 else 0)
  }

  /** One line per truthy field among the first `n`. */
  lemma {:induction false} LinesUpToLength(p: Profile, n: nat)
    ensures |LinesUpTo(p, n)| == ReportedBefore(p, n)
  {
    if n > 0 {
      LinesUpToLength(p, n - 1);
    }
  }

  /** The lines of fewer fields are a prefix of the lines of more fields. */
  lemma {:induction false} LinesUpToPrefix(p: Profile, n: nat, m: nat)
    requires n <= m
    ensures |LinesUpTo(p, n)| <= |LinesUpTo(p, m)|
    ensures forall j :: 0 <= j < |LinesUpTo(p, n)| ==> LinesUpTo(p, m)[j] == LinesUpTo(p, n)[j]
    decreases m
  {
    if n < m {
      LinesUpToPrefix(p, n, m - 1);
    }
  }

  /** One line per truthy field: no line for a missing, zero or empty field. */
  lemma ProfileLinesCount(p: Profile)
    ensures |ProfileLines(p)| ==
      (if IntTruthy(p.age) then 1 else 0) + (if TextTruthy(p.gender) then 1 else 0)
      + (if IntTruthy(p.weightKg) then 1 else 0) + (if IntTruthy(p.heightCm) then 1 else 0)
      + (if ListTruthy(p.allergies) then 1 else 0) + (if ListTruthy(p.previousIssues) then 1 else 0)
      + (if ListTruthy(p.currentMedications) then 1 else 0)
    ensures |ProfileLines(p)| <= 7
  {
    LinesUpToLength(p, 7);
    assert ReportedBefore(p, 1) == if IntTruthy(p.age) then 1 else 0;
    assert ReportedBefore(p, 2) == ReportedBefore(p, 1) + if TextTruthy(p.gender) then 1 else 0;
    assert ReportedBefore(p, 3) == ReportedBefore(p, 2) + if IntTruthy(p.weightKg) then 1 else 0;
    assert ReportedBefore(p, 4) == ReportedBefore(p, 3) + if IntTruthy(p.heightCm) then 1 else 0;
    assert ReportedBefore(p, 5) == ReportedBefore(p, 4) + if ListTruthy(p.allergies) then 1 else 0;
    assert ReportedBefore(p, 6) == ReportedBefore(p, 5) + if ListTruthy(p.previousIssues) then 1 else 0;
  }

  /**
   * Each truthy field has its line at the position given by the number of
   * truthy fields before it in the fixed order, so the lines keep that order.
   */
  lemma ProfileLinesOrder(p: Profile)
    ensures |ProfileLines(p)| == ReportedBefore(p, 7)
    ensures forall i: nat :: i < 7 && Reported(p, i) ==>
      ReportedBefore(p, i) < |ProfileLines(p)| && ProfileLines(p)[ReportedBefore(p, i)] == FieldLine(p, i)
  {
    LinesUpToLength(p, 7);
    forall i: nat | i < 7 && Reported(p, i)
      ensures ReportedBefore(p, i) < |ProfileLines(p)| && ProfileLines(p)[ReportedBefore(p, i)] == FieldLine(p, i)
    {
      LinesUpToLength(p, i);
      LinesUpToPrefix(p, i + 1, 7);
      assert LinesUpTo(p, i + 1) == LinesUpTo(p, i) + [FieldLine(p, i)];
    }
  }

  /** The default sentence is used exactly when the profile has no reportable field. */
  lemma ProfileSectionDefault(p: Profile)
    ensures ProfileSection(p) == DefaultProfileSection <==> !HasHealthFields(p)
  {
    ProfileLinesCount(p);
    if HasHealthFields(p) {
      assert |ProfileHeader| > |DefaultProfileSection|;
    }
  }

  /**
   * The instruction always opens with the fixed text and the separator and
   * heading, and closes with the separator.
   */
  lemma PromptFrame(base: string, section: string)
    ensures IsPrefix(base + "\n---\n" + ContextHeading + "\n", AssemblePrompt(base, section))
    ensures var s := AssemblePrompt(base, section); |s| >= 4 && s[|s| - 4..] == "\n---"
  {
    var head := base + "\n---\n" + ContextHeading + "\n";
    var s := AssemblePrompt(base, section);
    assert s == head + (section + "\n---");
    assert s[..|head|] == head;
  }

  /** `get_system_prompt`: appends a line per truthy field, then assembles the prompt. */
  method GetSystemPrompt(p: Profile) returns (prompt: string)
    ensures prompt == SystemPromptFor(p)
  {
    var section := DefaultProfileSection;
    var parts: seq<string> := [];
    if IntTruthy(p.age) { parts := parts + ["- Age: " + IntToString(p.age.value)]; }
    assert parts == LinesUpTo(p, 1);
    if TextTruthy(p.gender) { parts := parts + ["- Gender: " + p.gender.value]; }
    assert parts == LinesUpTo(p, 2);
    if IntTruthy(p.weightKg) { parts := parts + ["- Weight: " + IntToString(p.weightKg.value) + " kg"]; }
    assert parts == LinesUpTo(p, 3);
    if IntTruthy(p.heightCm) { parts := parts + ["- Height: " + IntToString(p.heightCm.value) + " cm"]; }
    assert parts == LinesUpTo(p, 4);
    if ListTruthy(p.allergies) { parts := parts + ["- Known Allergies: " + Join(", ", p.allergies.value)]; }
    assert parts == LinesUpTo(p, 5);
    if ListTruthy(p.previousIssues) { parts := parts + ["- Previous Medical Issues: " + Join(", ", p.previousIssues.value)]; }
    assert parts == LinesUpTo(p, 6);
    if ListTruthy(p.currentMedications) { parts := parts + ["- Current Medications: " + Join(", ", p.currentMedications.value)]; }
    assert parts == ProfileLines(p);
    if parts != [] {
      section := ProfileHeader + Join("\n", parts);
    }
    prompt := SystemPromptText + "\n---\n" + ContextHeading + "\n" + section + "\n---";
  }

  // ---------------------------------------------------------------- chat reply

  /**
   * What the provider gives back for a chat request: a reply with its
   * grounding chunks, or a failure of any kind. A reply's `text` is None when
   * it carries no text part.
   */
  datatype GenReply = Generated(text: Option<string>, chunks: seq<GroundingChunk>) | GenFailed(reason: string)

  /** The chat model, as a function of the request contents and system instruction. */
  type Generator = (seq<Content>, string) -> GenReply

  /**
   * The reply text and citations `get_ai_response` returns for a request with
   * this system instruction: a provider failure never escapes, it becomes the
   * fixed apology with no citations, and so does a grounding chunk that
   * cannot be cited.
   */
  function ChatReply(prompt: string, history: seq<ChatMessage>, instruction: string, generate: Generator)
    : (r: (Option<string>, seq<SourceCitation>))
    ensures generate(ChatContents(prompt, history), instruction).GenFailed? ==> r == (Some(ApologyText), [])
    ensures generate(ChatContents(prompt, history), instruction).Generated? ==>
      var reply := generate(ChatContents(prompt, history), instruction);
      && (!AllCitable(reply.chunks) ==> r == (Some(ApologyText), []))
      && (AllCitable(reply.chunks) ==> r.0 == reply.text && r.1 == Citations(reply.chunks))
  {
    match generate(ChatContents(prompt, history), instruction)
    case Generated(text, chunks) => if AllCitable(chunks) then (text, Citations(chunks)) else (Some(ApologyText), [])
    case GenFailed(_) => (Some(ApologyText), [])
  }

  /** Sends one chat request and shapes the reply: the text, and its grounding chunks as citations. */
  method SendChat(prompt: string, history: seq<ChatMessage>, instruction: string, generate: Generator)
    returns (text: Option<string>, citations: seq<SourceCitation>)
    ensures (text, citations) == ChatReply(prompt, history, instruction, generate)
  {
    var contents := ChatContents(prompt, history);
    var reply := generate(contents, instruction);
    if reply.GenFailed? {
      return Some(ApologyText), [];
    }
    var built := BuildCitations(reply.chunks);
    if built.None? {
      return Some(ApologyText), [];
    }
    text := reply.text;
    citations := built.value;
  }

  /** `get_ai_response`: the request goes out with this profile's system instruction. */
  method GetAiResponse(prompt: string, history: seq<ChatMessage>, profile: Profile, generate: Generator)
    returns (text: Option<string>, citations: seq<SourceCitation>)
    ensures (text, citations) == ChatReply(prompt, history, SystemPromptFor(profile), generate)
  {
    var instruction := GetSystemPrompt(profile);
    text, citations := SendChat(prompt, history, instruction, generate);
  }

  // ---------------------------------------------------------------- summaries

  /** A summary provider's answer: its text (None when the reply has no text part), or a failure with the exception's message. */
  datatype SummaryReply = SummaryText(text: Option<string>) | SummaryFailed(message: string)

  /** The structured-summary provider's answer, already through `json.loads`, or the message of whichever of the two failed. */
  datatype StructuredReply = Decoded(json: Json) | StructuredFailed(message: string)

  const SoapNotConfigured := "Error: AI service is not configured."
  const SoapFailedText := "I'm sorry, I encountered an error while generating the summary."

  /** `generate_soap_summary`: None when the reply's `text` is None, which is returned as it is. */
  function SoapSummary(clientReady: bool, transcript: string, summarize: string -> SummaryReply): (r: Option<string>)
    ensures !clientReady ==> r == Some(SoapNotConfigured)
    ensures clientReady && summarize(transcript).SummaryFailed? ==> r == Some(SoapFailedText)
    ensures clientReady && summarize(transcript).SummaryText? ==> r == summarize(transcript).text
  {
    if !clientReady then Some(SoapNotConfigured)
    else match summarize(transcript)
      case SummaryText(text) => text
      case SummaryFailed(_) => Some(SoapFailedText)
  }

  /** The members of a JSON object include one named `key` whose value satisfies `ok`. */
  predicate HasMember(j: Json, key: string, ok: Json -> bool)
  {
    j.JObject? && exists i :: 0 <= i < |j.members| && j.members[i].0 == key && ok(j.members[i].1)
  }

  predicate AnyJson(j: Json) { true }

  /** `Diet`: `Recommended` and `Restricted`. */
  predicate DietShape(d: Json)
  {
    HasMember(d, "Recommended", AnyJson) && HasMember(d, "Restricted", AnyJson)
  }

  /** `Lifestyle_Modifications`: `Diet`, `Exercise` and `Other_Recommendations`. */
  predicate LifestyleShape(l: Json)
  {
    HasMember(l, "Diet", DietShape) && HasMember(l, "Exercise", AnyJson) && HasMember(l, "Other_Recommendations", AnyJson)
  }

  /** `Follow_up`: `Timing` and `Special_Instructions`. */
  predicate FollowUpShape(f: Json)
  {
    HasMember(f, "Timing", AnyJson) && HasMember(f, "Special_Instructions", AnyJson)
  }

  /**
   * The fixed clinical-summary shape: nine top-level keys, `Lifestyle_Modifications`
   * with `Diet` {`Recommended`, `Restricted`}, `Exercise`, `Other_Recommendations`,
   * and `Follow_up` with `Timing`, `Special_Instructions`.
   */
  predicate HasSummaryShape(j: Json)
  {
    && HasMember(j, "Chief_Complaint", AnyJson)
    && HasMember(j, "Symptoms", AnyJson)
    && HasMember(j, "Physical_Examination", AnyJson)
    && HasMember(j, "Diagnosis", AnyJson)
    && HasMember(j, "Medications", AnyJson)
    && HasMember(j, "Treatment_Plan", AnyJson)
    && HasMember(j, "Lifestyle_Modifications", LifestyleShape)
    && HasMember(j, "Follow_up", FollowUpShape)
    && HasMember(j, "Additional_Notes", AnyJson)
  }

  /** A member found at a known position. */
  lemma MemberAt(j: Json, i: nat, key: string, ok: Json -> bool)
    requires j.JObject? && i < |j.members| && j.members[i].0 == key && ok(j.members[i].1)
    ensures HasMember(j, key, ok)
  {
  }

  const NoneText := JString("None")

  /** The default summary substituted when the provider or the JSON decoding fails. */
  function FallbackSummary(message: string): Json
  {
    JObject([
      ("Chief_Complaint", NoneText), ("Symptoms", NoneText), ("Physical_Examination", NoneText),
      ("Diagnosis", NoneText), ("Medications", NoneText), ("Treatment_Plan", NoneText),
      ("Lifestyle_Modifications", JObject([
        ("Diet", JObject([("Recommended", NoneText), ("Restricted", NoneText)])),
        ("Exercise", NoneText), ("Other_Recommendations", NoneText)])),
      ("Follow_up", JObject([("Timing", NoneText), ("Special_Instructions", NoneText)])),
      ("Additional_Notes", JString("Error processing transcript: " + message))])
  }

  /** The summary returned when no client is configured: only an `error` member. */
  const NotConfiguredSummary := JObject([("error", JString("AI service is not configured."))])

  /** `generate_structured_summary`. */
  function StructuredSummary(clientReady: bool, transcript: string, extract: string -> StructuredReply): (r: Json)
    ensures !clientReady ==> r == NotConfiguredSummary
    ensures clientReady && extract(transcript).Decoded? ==> r == extract(transcript).json
    ensures clientReady && extract(transcript).StructuredFailed? ==> r == FallbackSummary(extract(transcript).message)
  {
    if !clientReady then NotConfiguredSummary
    else match extract(transcript)
      case Decoded(json) => json
      case StructuredFailed(message) => FallbackSummary(message)
  }

  /**
   * With a client, a failed call or decode still yields the full shape, with the
   * error text in `Additional_Notes`; without a client the result is the bare
   * `error` object, which does not have the shape.
   */
  lemma StructuredSummaryFallback(clientReady: bool, transcript: string, extract: string -> StructuredReply)
    ensures clientReady && extract(transcript).StructuredFailed? ==>
      var r := StructuredSummary(clientReady, transcript, extract);
      && HasSummaryShape(r)
      && r.members[8] == ("Additional_Notes", JString("Error processing transcript: " + extract(transcript).message))
    ensures !clientReady ==> !HasSummaryShape(StructuredSummary(clientReady, transcript, extract))
  {
    if clientReady && extract(transcript).StructuredFailed? {
      FallbackHasShape(extract(transcript).message);
    }
    if !clientReady {
      var m := NotConfiguredSummary.members;
      assert |m| == 1 && m[0].0 == "error";
      assert !HasMember(NotConfiguredSummary, "Chief_Complaint", AnyJson);
    }
  }

  lemma FallbackHasShape(message: string)
    ensures HasSummaryShape(FallbackSummary(message))
  {
    var j := FallbackSummary(message);
    var m := j.members;
    var l := m[6].1;
    var d := l.members[0].1;
    MemberAt(d, 0, "Recommended", AnyJson);
    MemberAt(d, 1, "Restricted", AnyJson);
    MemberAt(l, 0, "Diet", DietShape);
    MemberAt(l, 1, "Exercise", AnyJson);
    MemberAt(l, 2, "Other_Recommendations", AnyJson);
    var f := m[7].1;
    MemberAt(f, 0, "Timing", AnyJson);
    MemberAt(f, 1, "Special_Instructions", AnyJson);
    MemberAt(j, 0, "Chief_Complaint", AnyJson);
    MemberAt(j, 1, "Symptoms", AnyJson);
    MemberAt(j, 2, "Physical_Examination", AnyJson);
    MemberAt(j, 3, "Diagnosis", AnyJson);
    MemberAt(j, 4, "Medications", AnyJson);
    MemberAt(j, 5, "Treatment_Plan", AnyJson);
    MemberAt(j, 6, "Lifestyle_Modifications", LifestyleShape);
    MemberAt(j, 7, "Follow_up", FollowUpShape);
    MemberAt(j, 8, "Additional_Notes", AnyJson);
  }
}
