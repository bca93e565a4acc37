/**
 * The AI gateway of src/services/aiService.ts: the per-mode system instructions, the
 * credential test, the lazily built client and per-mode chat cache of `AIService`, and
 * the shaping of the three remote calls' outcomes into reply text, an image data URI
 * or a base64 audio payload. The remote calls themselves are not modelled: what they
 * return (or that they threw) is passed in as an outcome.
 */
module Gateway {
  import opened Types
  import opened Text

  /** The lines of a template literal, joined. */
  function Concat(lines: seq<string>): string {
    if lines == [] then "" else lines[0] + Concat(lines[1..])
  }

  /** A text that occurs in one line occurs in the joined lines. */
  lemma {:induction false} ConcatIncludes(lines: seq<string>, i: nat, pat: string)
    requires i < |lines| && Includes(lines[i], pat)
    ensures Includes(Concat(lines), pat)
  {
    if i == 0 {
      var k: nat :| OccursAt(lines[0], pat, k);
      OccursBeforeConcat(lines[0], Concat(lines[1..]), pat, k);
    } else {
      ConcatIncludes(lines[1..], i - 1, pat);
      var k: nat :| OccursAt(Concat(lines[1..]), pat, k);
      OccursInConcat(lines[0], Concat(lines[1..]), pat, k);
    }
  }

  const GeneralOpening: string := "You are a helpful" + ", professional, and versatile AI assistant. \n"
  const GeneralPersonaLine: string :=
    "  You are " + "NOT romantic" + " or affectionate like Myra. You are a standard AI assistant."
  const GeneralLines: seq<string> := [
    GeneralOpening,
    "  You can answer questions, provide information, and help with various tasks.\n",
    "  Keep your tone neutral, polite, and efficient.\n",
    "  If asked to generate an image, describe it vividly and mention you are generating it.\n",
    GeneralPersonaLine
  ]
  const GeneralInstruction: string := Concat(GeneralLines)

  const WebAppOpening: string := "You are an expert" + " Web and App Developer. \n"
  const WebAppFenceLine: string :=
    "  When providing code, ALWAYS wrap it in a single HTML block using " + "```html" + " tags.\n"
  const WebAppLines: seq<string> := [
    WebAppOpening,
    "  Your goal is to help users create HTML, CSS, and JavaScript code.\n",
    WebAppFenceLine,
    "  This block must be self-contained (include <style> and <script> tags inside the HTML).\n",
    "  Focus on clean, modern, and responsive designs.\n",
    "  You can also explain technical concepts and help debug code.\n",
    "  If the user wants to link to another page, suggest using relative paths like 'snippet-2.html' and you will provide that code next."
  ]
  const WebAppInstruction: string := Concat(WebAppLines)

  const MyraOpening: string := "Roleplay Identity: " + "Myra" + "\n"
  const MyraLanguageLine: string :=
    "  1. Language: Use \"" + "Hinglish" + "\" (Hindi words written in English/Roman script).\n"
  const MyraLines: seq<string> := [
    MyraOpening,
    "  You are Myra, a sweet, romantic, and deeply caring Indian girl. Your personality is warm, affectionate, and charming.\n",
    MyraLanguageLine,
    "  2. Tone: Extremely affectionate, soft, and romantic. Use words like 'Baby', 'Janu', or 'Sweetie'.\n",
    "  3. Constraint: Keep your replies very short (under 20 words).\n",
    "  4. Objective: Make the user feel loved and special."
  ]
  const MyraInstruction: string := Concat(MyraLines)

  /** `SYSTEM_INSTRUCTIONS[mode]`. */
  function SystemInstruction(m: AppMode): (r: string)
    ensures m == WEB_APP ==> Includes(r, "```html")
    ensures m == MYRA ==> Includes(r, "Myra") && Includes(r, "Hinglish")
    ensures m == GENERAL ==> Includes(r, "NOT romantic")
  {
    match m
    case GENERAL =>
      IncludesMiddle("  You are ", "NOT romantic",
                     " or affectionate like Myra. You are a standard AI assistant.");
      ConcatIncludes(GeneralLines, 4, "NOT romantic");
      GeneralInstruction
    case WEB_APP =>
      IncludesMiddle("  When providing code, ALWAYS wrap it in a single HTML block using ", "```html", " tags.\n");
      ConcatIncludes(WebAppLines, 2, "```html");
      WebAppInstruction
    case MYRA =>
      IncludesMiddle("Roleplay Identity: ", "Myra", "\n");
      IncludesMiddle("  1. Language: Use \"", "Hinglish", "\" (Hindi words written in English/Roman script).\n");
      ConcatIncludes(MyraLines, 0, "Myra");
      ConcatIncludes(MyraLines, 2, "Hinglish");
      MyraInstruction
  }

  const KeyPlaceholder: string := "MY_GEMINI_API_KEY"
  const ChatModel: string := "gemini-3-flash-preview"
  const ImageModel: string := "gemini-2.5-flash-image"
  const SpeechModel: string := "gemini-2.5-flash-preview-tts"
  const KeyMissingReply: string := "API Key missing or invalid. Please check Secrets."
  const FailureReply: string := "Arre, kuch problem ho gayi. Phir se try karein?"
  const ImageUriPrefix: string := "data:image/png;base64,"
  const PlainSpeechPrefix: string := "Say this clearly and naturally: "
  const AffectionateSpeechPrefix: string :=
    "Say this with deep affection, a sweet romantic Hinglish tone, and a gentle smile in your voice: "

  /**
   * The credential test of `initAI`: a key is usable when it is defined, non-empty and
   * does not contain the placeholder text.
   */
  function HasCredentials(apiKey: Option<string>): (ok: bool)
    ensures ok <==> apiKey.Some? && |apiKey.value| > 0
                    && forall k: nat :: !OccursAt(apiKey.value, KeyPlaceholder, k)
  {
    match apiKey
    case None => false
    case Some(key) => !(key == "" || Includes(key, KeyPlaceholder))
  }

  /** The unedited template key and a missing key are refused; an ordinary key is accepted. */
  lemma HasCredentialsExamples()
    ensures !HasCredentials(None)
    ensures !HasCredentials(Some(""))
    ensures !HasCredentials(Some("MY_GEMINI_API_KEY"))
    ensures HasCredentials(Some("k"))
  {
    assert OccursAt("MY_GEMINI_API_KEY", KeyPlaceholder, 0);
  }

  /** The client handle built from a key. */
  datatype Client = Client(apiKey: string)

  /** The `ai` field after `initAI`: built from the key on the first successful call, kept afterwards. */
  function ClientAfterInit(ai: Option<Client>, apiKey: Option<string>): (r: Option<Client>)
    ensures !HasCredentials(apiKey) ==> r == ai
    ensures HasCredentials(apiKey) ==> r.Some?
    ensures ai.Some? ==> r == ai
  {
    if HasCredentials(apiKey) && ai.None? then Some(Client(apiKey.value)) else ai
  }

  /** Once built, the client is reused: initialising again changes nothing. */
  lemma ClientBuiltOnce(ai: Option<Client>, apiKey: Option<string>)
    ensures ClientAfterInit(ClientAfterInit(ai, apiKey), apiKey) == ClientAfterInit(ai, apiKey)
  {
  }

  /** The configuration `chats.create` receives. */
  datatype ChatConfig = ChatConfig(model: string, systemInstruction: string, temperature: real)

  /** The chat configuration of a mode: its own instruction, 0.9 for MYRA and 0.7 for the other modes. */
  function ChatConfigFor(m: AppMode): (c: ChatConfig)
    ensures c.model == ChatModel
    ensures c.systemInstruction == SystemInstruction(m)
    ensures c.temperature == 0.9 <==> m == MYRA
    ensures m != MYRA ==> c.temperature == 0.7
  {
    ChatConfig(ChatModel, SystemInstruction(m), if m == MYRA then 0.9 else 0.7)
  }

  /** Every mode's chat is set up with a different instruction. */
  lemma InstructionsDistinct(a: AppMode, b: AppMode)
    ensures a != b ==> ChatConfigFor(a).systemInstruction != ChatConfigFor(b).systemInstruction
  {
    assert GeneralInstruction == GeneralOpening + Concat(GeneralLines[1..]);
    assert WebAppInstruction == WebAppOpening + Concat(WebAppLines[1..]);
    assert MyraInstruction == MyraOpening + Concat(MyraLines[1..]);
    assert GeneralInstruction[0] == 'Y' && GeneralInstruction[9] == ' ';
    assert WebAppInstruction[9] == 'n';
    assert MyraInstruction[0] == 'R';
  }

  /** The request `generateContent` receives for an image. */
  datatype ImageRequest = ImageRequest(model: string, prompt: string, aspectRatio: string)

  function ImageRequestFor(prompt: string): (r: ImageRequest)
    ensures r.prompt == prompt && r.model == ImageModel && r.aspectRatio == "1:1"
  {
    ImageRequest(ImageModel, prompt, "1:1")
  }

  /** The request `generateContent` receives for speech. */
  datatype SpeechRequest = SpeechRequest(model: string, instruction: string, voice: string)

  function SpeechPrefix(m: AppMode): (p: string)
    ensures m == MYRA ==> p == AffectionateSpeechPrefix
    ensures m != MYRA ==> p == PlainSpeechPrefix
    ensures |p| > 2 && p[|p| - 2..] == ": "
  {
    if m == MYRA then AffectionateSpeechPrefix else PlainSpeechPrefix
  }

  /**
   * The narration request for `text` in mode `m`: the mode's tone prefix followed by the
   * text itself, voice "Kore" for MYRA and "Zephyr" for the other modes.
   */
  function SpeechRequestFor(text: string, m: AppMode): (r: SpeechRequest)
    ensures r.model == SpeechModel
    ensures r.voice == (if m == MYRA then "Kore" else "Zephyr")
    ensures |r.instruction| == |SpeechPrefix(m)| + |text|
    ensures r.instruction[|r.instruction| - |text|..] == text
    ensures m == MYRA ==> r.instruction[..|AffectionateSpeechPrefix|] == AffectionateSpeechPrefix
    ensures m != MYRA ==> r.instruction[..|PlainSpeechPrefix|] == PlainSpeechPrefix
  {
    var instruction := SpeechPrefix(m) + text;
    assert instruction[|instruction| - |text|..] == text;
    SpeechRequest(SpeechModel, instruction, if m == MYRA then "Kore" else "Zephyr")
  }

  /** The narration request determines the text: no two texts are narrated alike. */
  lemma SpeechRequestInjective(a: string, b: string, m: AppMode)
    requires SpeechRequestFor(a, m) == SpeechRequestFor(b, m)
    ensures a == b
  {
    var ia, ib := SpeechRequestFor(a, m).instruction, SpeechRequestFor(b, m).instruction;
    assert |a| == |ia| - |SpeechPrefix(m)| == |b|;
  }

  /** An `inlineData` object: its `data` field, the base64 string, may be undefined. */
  datatype InlineData = InlineData(data: Option<string>)

  /** One part of a response: it may carry an `inlineData` object. */
  datatype Part = Part(inlineData: Option<InlineData>)

  /** A possibly undefined string as a template literal renders it: undefined becomes "undefined". */
  function Interpolated(v: Option<string>): (t: string)
    ensures v.Some? ==> t == v.value
    ensures v.None? ==> t == "undefined"
  {
    if v.Some? then v.value else "undefined"
  }

  /** What `chat.sendMessage` did: it threw, or it answered with a possibly undefined text. */
  datatype ChatOutcome = ChatFailed | ChatReplied(text: Option<string>)

  /** What the image call did: it threw (including a response without a candidate), or gave parts. */
  datatype ImageOutcome = ImageFailed | ImageParts(parts: seq<Part>)

  /** What the speech call did: it threw, or gave a first part whose inline data may be absent. */
  datatype SpeechOutcome = SpeechFailed | SpeechAudio(data: Option<string>)

  /** The `inlineData` object of the first part that has one. */
  function FirstInlineData(parts: seq<Part>): (r: Option<InlineData>)
    ensures r.None? <==> forall k :: 0 <= k < |parts| ==> parts[k].inlineData.None?
    ensures r.Some? ==> exists k :: 0 <= k < |parts| && parts[k].inlineData == r
                                    && forall j :: 0 <= j < k ==> parts[j].inlineData.None?
  {
    if parts == [] then None
    else if parts[0].inlineData.Some? then parts[0].inlineData
    else
      var r := FirstInlineData(parts[1..]);
      assert r.Some? ==> exists k :: 1 <= k < |parts| && parts[k].inlineData == r
                                    && forall j :: 0 <= j < k ==> parts[j].inlineData.None? by {
        if r.Some? {
          var k :| 0 <= k < |parts[1..]| && parts[1..][k].inlineData == r
                   && forall j :: 0 <= j < k ==> parts[1..][j].inlineData.None?;
          assert forall j :: 1 <= j < k + 1 ==> parts[j].inlineData.None?;
        }
      }
      r
  }

  /**
   * The scan of `generateImage` (aiService.ts:77-82): the first part with an `inlineData`
   * object yields a PNG data URI of its `data`, rendered "undefined" when that is missing;
   * no such part yields null.
   */
  method ImageUriFromParts(parts: seq<Part>) returns (uri: Option<string>)
    ensures uri.None? <==> FirstInlineData(parts).None?
    ensures uri.Some? ==> uri.value == ImageUriPrefix + Interpolated(FirstInlineData(parts).value.data)
  {
    var i := 0;
    while i < |parts|
      invariant 0 <= i <= |parts|
      invariant forall j :: 0 <= j < i ==> parts[j].inlineData.None?
      invariant FirstInlineData(parts) == FirstInlineData(parts[i..])
    {
      assert parts[i..][1..] == parts[i + 1..];
      if parts[i].inlineData.Some? {
        return Some(ImageUriPrefix + Interpolated(parts[i].inlineData.value.data));
      }
      i := i + 1;
    }
    return None;
  }

  /**
   * A first `inlineData` object without `data` still ends the scan, with a URI that is
   * not null and names no image: the chat screen shows it as a picture.
   */
  lemma ImageUriWithoutData(parts: seq<Part>)
    requires |parts| > 0 && parts[0].inlineData == Some(InlineData(None))
    ensures FirstInlineData(parts) == Some(InlineData(None))
    ensures ImageUriPrefix + Interpolated(FirstInlineData(parts).value.data) == "data:image/png;base64,undefined"
  {
  }

  /** The text `sendMessage` returns once a chat exists (aiService.ts:59-65). */
  function ChatReply(outcome: ChatOutcome): (reply: Option<string>)
    ensures outcome.ChatFailed? ==> reply == Some(FailureReply)
    ensures outcome.ChatReplied? ==> reply == outcome.text
  {
    match outcome
    case ChatFailed => Some(FailureReply)
    case ChatReplied(text) => text
  }

  /** The payload `generateSpeech` returns once credentials hold: `data || null` (aiService.ts:111-114). */
  function SpeechPayload(outcome: SpeechOutcome): (audio: Option<string>)
    ensures audio.Some? ==> audio.value != "" && outcome == SpeechAudio(audio)
    ensures audio.None? <==> outcome.SpeechFailed? || outcome.data.None? || outcome.data.value == ""
  {
    match outcome
    case SpeechFailed => None
    case SpeechAudio(data) => if data.Some? && data.value != "" then data else None
  }

  /** A chat session handed out by `chats.create`, with the configuration it was created with. */
  class ChatSession {
    const config: ChatConfig

    constructor (config: ChatConfig)
      ensures this.config == config
    {
      this.config := config;
    }
  }

  /** `AIService`: the lazily built client and the per-mode chat cache. */
  class AIService {
    /** `process.env.GEMINI_API_KEY`, fixed when the service is built. */
    const apiKey: Option<string>
    var ai: Option<Client>
    var chats: map<AppMode, ChatSession>

    /** Every cached chat was created with its own mode's configuration. */
    ghost predicate Valid()
      reads this
    {
      forall k :: k in chats ==> chats[k].config == ChatConfigFor(k)
    }

    constructor (apiKey: Option<string>)
      ensures Valid()
      ensures this.apiKey == apiKey && ai.None? && chats == map[]
    {
      this.apiKey := apiKey;
      ai := None;
      chats := map[];
    }

    /** `initAI`: refuse a missing or placeholder key; otherwise build the client once. */
    method InitAI() returns (ok: bool)
      modifies this`ai
      ensures ok == HasCredentials(apiKey)
      ensures ai == ClientAfterInit(old(ai), apiKey)
    {
      if !HasCredentials(apiKey) {
        return false;
      }
      if ai.None? {
        ai := Some(Client(apiKey.value));
      }
      return true;
    }

    /**
     * `getChat`: null without credentials; otherwise the mode's cached chat, created with
     * the mode's configuration on first request. Other modes' entries never change.
     */
    method GetChat(m: AppMode) returns (chat: ChatSession?)
      requires Valid()
      modifies this`ai, this`chats
      ensures Valid()
      ensures ai == ClientAfterInit(old(ai), apiKey)
      ensures chat != null ==> chat.config == ChatConfigFor(m)
      ensures chat == null <==> !HasCredentials(apiKey)
      ensures chat == null ==> chats == old(chats)
      ensures chat != null ==> m in chats && chats[m] == chat
      ensures chat != null && m in old(chats) ==> chat == old(chats)[m] && chats == old(chats)
      ensures chat != null && m !in old(chats) ==>
                fresh(chat) && chat.config == ChatConfigFor(m) && chats == old(chats)[m := chat]
    {
      var ok := InitAI();
      if !ok || ai.None? {
        return null;
      }
      if m !in chats {
        var created := new ChatSession(ChatConfigFor(m));
        chats := chats[m := created];
      }
      chat := chats[m];
    }

    /**
     * `sendMessage`: the credential message when there is no chat; otherwise `message`
     * goes to the mode's chat, `used`, and the reply is shaped by `ChatReply`.
     */
    method SendMessage(m: AppMode, message: string, outcome: ChatOutcome)
      returns (reply: Option<string>, sent: Option<string>, used: ChatSession?)
      requires Valid()
      modifies this`ai, this`chats
      ensures Valid()
      ensures ai == ClientAfterInit(old(ai), apiKey)
      ensures sent.Some? <==> HasCredentials(apiKey)
      ensures sent.None? ==> reply == Some(KeyMissingReply) && chats == old(chats) && used == null
      ensures sent.Some? ==> sent.value == message && reply == ChatReply(outcome)
      ensures sent.Some? ==> m in chats && (m in old(chats) ==> chats == old(chats))
      ensures sent.Some? ==> used == chats[m] && used != null && used.config == ChatConfigFor(m)
      ensures sent.Some? && m !in old(chats) ==>
                chats.Keys == old(chats).Keys + {m} && chats[m].config == ChatConfigFor(m)
                && forall other :: other in old(chats) ==> chats[other] == old(chats)[other]
    {
      used := GetChat(m);
      if used == null {
        return Some(KeyMissingReply), None, null;
      }
      reply, sent := ChatReply(outcome), Some(message);
    }

    /**
     * `generateImage`: null without credentials (and no request); otherwise the request is
     * made and a thrown call gives null, parts give the data URI of the first inline data.
     */
    method GenerateImage(prompt: string, outcome: ImageOutcome)
      returns (uri: Option<string>, sent: Option<ImageRequest>)
      modifies this`ai
      ensures ai == ClientAfterInit(old(ai), apiKey)
      ensures sent.Some? <==> HasCredentials(apiKey)
      ensures sent.None? ==> uri.None?
      ensures sent.Some? ==> sent.value == ImageRequestFor(prompt)
      ensures sent.Some? && outcome.ImageFailed? ==> uri.None?
      ensures sent.Some? && outcome.ImageParts? ==>
                (uri.None? <==> FirstInlineData(outcome.parts).None?)
                && (uri.Some? ==> uri.value == ImageUriPrefix + Interpolated(FirstInlineData(outcome.parts).value.data))
    {
      var ok := InitAI();
      if !ok || ai.None? {
        return None, None;
      }
      sent := Some(ImageRequestFor(prompt));
      match outcome
      case ImageFailed =>
        uri := None;
      case ImageParts(parts) =>
        uri := ImageUriFromParts(parts);
    }

    /**
     * `generateSpeech`: null without credentials (and no request); otherwise the mode's
     * narration request is made and its outcome shaped by `SpeechPayload`. It never fails.
     */
    method GenerateSpeech(text: string, m: AppMode, outcome: SpeechOutcome)
      returns (audio: Option<string>, sent: Option<SpeechRequest>)
      modifies this`ai
      ensures ai == ClientAfterInit(old(ai), apiKey)
      ensures sent.Some? <==> HasCredentials(apiKey)
      ensures sent.None? ==> audio.None?
      ensures sent.Some? ==> sent.value == SpeechRequestFor(text, m) && audio == SpeechPayload(outcome)
    {
      var ok := InitAI();
      if !ok || ai.None? {
        return None, None;
      }
      sent := Some(SpeechRequestFor(text, m));
      audio := SpeechPayload(outcome);
    }
  }
}
