/**
 * The chat screen's state and handlers (src/App.tsx): the `useState` slots become the
 * fields of `App`, and each handler a method that updates them.
 *
 * `handleSend` is asynchronous: its synchronous part (guard, optimistic user message,
 * cleared input, `isLoading`) is `Submit`, which hands back the pending `Turn`; what
 * runs once the gateway has answered is `Complete`. `playResponse` is split the same
 * way into `BeginPlayback` (up to the speech request) and `FinishPlayback`. Platform
 * calls (stopping or starting an audio source or the recogniser, requesting speech)
 * are recorded in order in `effects`.
 */
module ChatApp {
  import opened Types
  import opened Text
  import opened CodeFence
  import opened Pcm
  import opened Session

  const ImageCaption: string := "Ye rahi aapki image!"
  const EmptyReplyText: string := "..."

  /** The image-intent test of line 156: the lower-cased text mentions "image" or "bnao". */
  function ImageIntent(text: string): (b: bool)
    ensures b <==> (exists k: nat :: OccursAt(ToLower(text), "image", k))
                   || (exists k: nat :: OccursAt(ToLower(text), "bnao", k))
  {
    Includes(ToLower(text), "image") || Includes(ToLower(text), "bnao")
  }

  /** Lower-casing twice is lower-casing once. */
  lemma ToLowerIdempotent(s: string)
    ensures ToLower(ToLower(s)) == ToLower(s)
  {
    forall i | 0 <= i < |s|
      ensures ToLower(ToLower(s))[i] == ToLower(s)[i]
    {
      assert LowerChar(LowerChar(s[i])) == LowerChar(s[i]);
    }
  }

  /** The image-intent test ignores case. */
  lemma ImageIntentIgnoresCase(text: string)
    ensures ImageIntent(ToLower(text)) == ImageIntent(text)
  {
    ToLowerIdempotent(text);
  }

  /** "Ek IMAGE bnao" asks for an image; "Hello" does not. */
  lemma ImageIntentExamples()
    ensures ImageIntent("Ek IMAGE bnao")
    ensures !ImageIntent("Hello")
  {
    var lower := ToLower("Ek IMAGE bnao");
    assert lower[3..8] == "image";
    assert OccursAt(lower, "image", 3);
    var hello := ToLower("Hello");
    assert hello == "hello";
    assert hello[0] == 'h' && hello[1] == 'e';
    assert !OccursAt(hello, "image", 0) by { assert "image"[0] == 'i'; }
    assert !OccursAt(hello, "bnao", 0) && !OccursAt(hello, "bnao", 1) by { assert "bnao"[0] == 'b'; }
  }

  /** `textOverride || input`: a non-empty override wins. */
  function ChosenText(textOverride: string, input: string): (text: string)
    ensures textOverride != "" ==> text == textOverride
    ensures textOverride == "" ==> text == input
  {
    if textOverride != "" then textOverride else input
  }

  /** The guard of line 138: blank text, a turn in flight, or no mode. */
  function Rejected(text: string, isLoading: bool, mode: Option<AppMode>): (b: bool)
    ensures b <==> AllSpace(text) || isLoading || mode.None?
  {
    IsBlank(text) || isLoading || mode.None?
  }

  /** The optimistic user message of lines 140-145. */
  function UserMessage(now: int, text: string): (msg: Message)
    ensures msg.sender == User && msg.text == text && msg.id == now
    ensures msg.kind.None? && msg.code.None? && msg.imageUrl.None?
  {
    Message(now, text, User, now, None, None, None)
  }

  /** The picture message of lines 159-166. */
  function ImageMessage(now: int, url: string): (msg: Message)
    ensures msg.sender == Ai && msg.text == ImageCaption && msg.id == now + 1
    ensures msg.kind == Some(Image) && msg.imageUrl == Some(url) && msg.code.None?
  {
    Message(now + 1, ImageCaption, Ai, now, Some(Image), None, Some(url))
  }

  /** `response.text || '...'`: the reply, or "..." when it is undefined or empty. */
  function ReplyText(reply: Option<string>): (text: string)
    ensures text != ""
    ensures reply.Some? && reply.value != "" ==> text == reply.value
    ensures reply.None? || reply.value == "" ==> text == EmptyReplyText
  {
    if reply.Some? && reply.value != "" then reply.value else EmptyReplyText
  }

  /**
   * The AI message of a chat turn (lines 175-187): tagged as code, with the extracted
   * code, exactly when the mode is WEB_APP and the reply holds a fenced block.
   */
  function ReplyMessage(m: AppMode, reply: Option<string>, now: int): (msg: Message)
    requires m == WEB_APP ==> reply.Some?
    ensures msg.sender == Ai && msg.id == now + 1 && msg.text == ReplyText(reply) && msg.imageUrl.None?
    ensures msg.code.Some? <==> m == WEB_APP && ExtractCode(reply.value).Some?
    ensures msg.code.Some? ==> msg.code == ExtractCode(reply.value) && msg.kind == Some(Code)
    ensures msg.code.None? ==> msg.kind.None?
  {
    var code := if m == WEB_APP then ExtractCode(reply.value) else None;
    Message(now + 1, ReplyText(reply), Ai, now, if code.Some? then Some(Code) else None, code, None)
  }

  /**
   * A submission in flight: what the `handleSend` closure captured when it ran (the
   * mode, the text, `isVoiceMode`, `isSpeaking` and `snippets.length`).
   */
  datatype Turn = Turn(mode: AppMode, text: string, voiceMode: bool, speaking: bool, snippetCount: nat)

  /** Lines 156-158: the image shortcut applies and the image call produced a URL. */
  predicate ImageShortcut(turn: Turn, image: Option<string>) {
    turn.mode == GENERAL && ImageIntent(turn.text) && image.Some? && image.value != ""
  }

  /** A WEB_APP turn whose reply text is undefined: `.match` throws before any message is added. */
  predicate ReplyThrows(turn: Turn, image: Option<string>, reply: Option<string>) {
    !ImageShortcut(turn, image) && turn.mode == WEB_APP && reply.None?
  }

  /**
   * The AI message a completed turn appends to the turn's mode, if any: the picture when
   * the shortcut applies, nothing when the reply throws, the chat reply otherwise.
   */
  function TurnReply(turn: Turn, image: Option<string>, reply: Option<string>, now: int): (r: Option<Message>)
    ensures r.None? <==> ReplyThrows(turn, image, reply)
    ensures r.Some? ==> r.value.sender == Ai && r.value.id == now + 1
    ensures r.Some? ==> (r.value.kind == Some(Image) <==> ImageShortcut(turn, image))
    ensures ImageShortcut(turn, image) ==> r.value.text == ImageCaption && r.value.imageUrl == image
    ensures r.Some? && !ImageShortcut(turn, image) ==>
              r.value.text == ReplyText(reply)
              && (r.value.kind == Some(Code) <==> turn.mode == WEB_APP && ExtractCode(reply.value).Some?)
    ensures ImageShortcut(turn, image) ==> r == Some(ImageMessage(now, image.value))
    ensures !ImageShortcut(turn, image) && !ReplyThrows(turn, image, reply) ==>
              r == Some(ReplyMessage(turn.mode, reply, now))
  {
    if ImageShortcut(turn, image) then Some(ImageMessage(now, image.value))
    else if ReplyThrows(turn, image, reply) then None
    else Some(ReplyMessage(turn.mode, reply, now))
  }

  /**
   * The text a completed turn reads aloud, if any: the caption of a picture in voice mode
   * (line 168), or the reply in voice mode or while speech is playing (line 205).
   */
  function SpokenText(turn: Turn, image: Option<string>, reply: Option<string>, now: int): (r: Option<string>)
    ensures r.Some? ==> TurnReply(turn, image, reply, now).Some?
                        && r.value == TurnReply(turn, image, reply, now).value.text
    ensures ImageShortcut(turn, image) ==> (r.Some? <==> turn.voiceMode)
    ensures !ImageShortcut(turn, image) && !ReplyThrows(turn, image, reply) ==>
              (r.Some? <==> turn.voiceMode || turn.speaking)
  {
    if ImageShortcut(turn, image) then (if turn.voiceMode then Some(ImageCaption) else None)
    else if ReplyThrows(turn, image, reply) then None
    else if turn.voiceMode || turn.speaking then Some(ReplyText(reply))
    else None
  }

  /** A platform call, in the order the handlers make them. */
  datatype Effect =
    | StopSource(handle: nat)
    | StartSource(handle: nat)
    | StartRecognition
    | StopRecognition
    | RequestSpeech(text: string, mode: AppMode)

  /** The playing audio source: a handle and the decoded samples it plays. */
  datatype Source = Source(handle: nat, samples: seq<real>)

  /**
   * The calls `playResponse` makes before it awaits the speech payload (lines 80-92):
   * stop the current source, stop the recogniser if listening, then request speech.
   */
  function PlaybackPrelude(current: Option<Source>, listening: bool, recognition: bool, text: string, m: AppMode)
    : (calls: seq<Effect>)
    ensures |calls| >= 1 && calls[|calls| - 1] == RequestSpeech(text, m)
    ensures |calls| == (if current.Some? then 1 else 0) + (if listening && recognition then 1 else 0) + 1
    ensures current.Some? ==> calls[0] == StopSource(current.value.handle)
    ensures current.None? ==> forall i :: 0 <= i < |calls| ==> !calls[i].StopSource?
    ensures StopRecognition in calls <==> listening && recognition
    ensures forall i :: 0 <= i < |calls| - 1 ==> !calls[i].RequestSpeech?
  {
    (if current.Some? then [StopSource(current.value.handle)] else [])
    + (if listening && recognition then [StopRecognition] else [])
    + [RequestSpeech(text, m)]
  }

  /** `mode || 'GENERAL'`: the mode speech is requested for. */
  function SpeechMode(mode: Option<AppMode>): (m: AppMode)
    ensures mode.Some? ==> m == mode.value
    ensures mode.None? ==> m == GENERAL
  {
    if mode.Some? then mode.value else GENERAL
  }

  /**
   * A payload the decoder turns into a buffer without throwing: `createBuffer` receives a
   * length `len / 2` of at least one frame, and every index `i < len / 2` of the fill
   * loop reads a pair of bytes that both exist (an odd length fails on its last index).
   */
  function PlayablePcm(bytes: seq<byte>): (b: bool)
    ensures b <==> |bytes| / 2 >= 1 && forall i: nat :: 2 * i < |bytes| ==> 2 * i + 1 < |bytes|
  {
    assert |bytes| % 2 == 1 ==> var last: nat := |bytes| / 2; 2 * last < |bytes| && 2 * last + 1 == |bytes|;
    |bytes| > 0 && |bytes| % 2 == 0
  }

  /** The first snippet with the given id (`snippets.find`, line 264). */
  function FindSnippet(snippets: seq<CodeSnippet>, id: Option<int>): (r: Option<CodeSnippet>)
    ensures r.Some? ==> r.value in snippets && Some(r.value.id) == id
    ensures r.Some? ==> exists k :: 0 <= k < |snippets| && snippets[k] == r.value
                                    && forall j :: 0 <= j < k ==> Some(snippets[j].id) != id
    ensures r.None? <==> forall s :: s in snippets ==> Some(s.id) != id
  {
    if snippets == [] then None
    else if Some(snippets[0].id) == id then Some(snippets[0])
    else
      var r := FindSnippet(snippets[1..], id);
      assert r.Some? ==> exists k :: 1 <= k < |snippets| && snippets[k] == r.value
                                    && forall j :: 0 <= j < k ==> Some(snippets[j].id) != id by {
        if r.Some? {
          var k :| 0 <= k < |snippets[1..]| && snippets[1..][k] == r.value
                   && forall j :: 0 <= j < k ==> Some(snippets[1..][j].id) != id;
          assert forall j :: 1 <= j < k + 1 ==> Some(snippets[j].id) != id;
        }
      }
      r
  }

  /** With two snippets sharing an id, the one nearer the front is shown. */
  lemma FindSnippetPrefersFront(a: CodeSnippet, b: CodeSnippet)
    requires a.id == b.id && a != b
    ensures FindSnippet([a, b], Some(a.id)) == Some(a)
  {
  }

  /** After a snippet is removed, its id no longer resolves: a stale selection shows nothing. */
  lemma RemovedSnippetNotFound(snippets: seq<CodeSnippet>, id: int)
    ensures FindSnippet(Without(snippets, id), Some(id)).None?
  {
  }

  class App {
    var mode: Option<AppMode>
    var histories: Histories
    var snippets: seq<CodeSnippet>
    var input: string
    var isLoading: bool
    var isListening: bool
    var isSpeaking: bool
    var isVoiceMode: bool
    var activeSnippetId: Option<int>
    var showCodePanel: bool
    /** `currentSourceRef`: set when a buffer starts playing and never cleared. */
    var currentSource: Option<Source>
    /** Whether the platform offers speech recognition (`recognitionRef.current` is set). */
    const recognition: bool
    var effects: seq<Effect>

    ghost predicate Valid()
      reads this
    {
      Total(histories)
    }

    constructor (recognition: bool)
      ensures Valid() && this.recognition == recognition
      ensures mode.None? && histories == EmptyHistories() && snippets == [] && input == ""
      ensures !isLoading && !isListening && !isSpeaking && !isVoiceMode
      ensures activeSnippetId.None? && !showCodePanel && currentSource.None? && effects == []
    {
      this.recognition := recognition;
      mode := None;
      histories := EmptyHistories();
      snippets := [];
      input := "";
      isLoading, isListening, isSpeaking, isVoiceMode := false, false, false, false;
      activeSnippetId := None;
      showCodePanel := false;
      currentSource := None;
      effects := [];
    }

    /** Choosing a persona, or going back to the chooser (lines 246, 337); histories are kept. */
    method SelectMode(m: Option<AppMode>)
      modifies this`mode
      ensures mode == m
    {
      mode := m;
    }

    /** The text box (line 515). */
    method SetInput(text: string)
      modifies this`input
      ensures input == text
    {
      input := text;
    }

    /** The voice-mode switch (line 385). */
    method ToggleVoiceMode()
      modifies this`isVoiceMode
      ensures isVoiceMode == !old(isVoiceMode)
    {
      isVoiceMode := !isVoiceMode;
    }

    /** The code-panel button (line 364) and the panel's close button (line 281). */
    method SetCodePanel(show: bool)
      modifies this`showCodePanel
      ensures showCodePanel == show
    {
      showCodePanel := show;
    }

    /** Picking a snippet in the side panel or closing the preview (lines 289, 544). */
    method SelectSnippet(id: Option<int>)
      modifies this`activeSnippetId
      ensures activeSnippetId == id
    {
      activeSnippetId := id;
    }

    /**
     * The synchronous part of `handleSend` (lines 136-152). A blank chosen text, a turn
     * in flight or no mode changes nothing; otherwise the user message goes to the end of
     * the current mode's list, the input is cleared and the turn is in flight.
     */
    method Submit(textOverride: string, now: int) returns (turn: Option<Turn>)
      requires Valid()
      modifies this`histories, this`input, this`isLoading
      ensures Valid()
      ensures var text := ChosenText(textOverride, old(input));
              if Rejected(text, old(isLoading), mode) then
                turn.None? && histories == old(histories) && input == old(input)
                && isLoading == old(isLoading)
              else
                turn == Some(Turn(mode.value, text, isVoiceMode, isSpeaking, |snippets|))
                && histories == Append(old(histories), mode.value, UserMessage(now, text))
                && input == "" && isLoading
    {
      var text := ChosenText(textOverride, input);
      if IsBlank(text) || isLoading || mode.None? {
        return None;
      }
      var m := mode.value;
      histories := Append(histories, m, UserMessage(now, text));
      input := "";
      isLoading := true;
      turn := Some(Turn(m, text, isVoiceMode, isSpeaking, |snippets|));
    }

    /**
     * `snippets` gains a new first entry named after `count` and it becomes the active
     * snippet (lines 188-195 and 445-452).
     */
    method RegisterSnippet(html: string, count: nat, now: int)
      modifies this`snippets, this`activeSnippetId
      ensures snippets == [NewSnippet(now, count, html, now)] + old(snippets)
      ensures activeSnippetId == Some(now)
    {
      var snippet := NewSnippet(now, count, html, now);
      snippets := [snippet] + snippets;
      activeSnippetId := Some(snippet.id);
    }

    /** The synchronous prefix of `playResponse` (lines 80-92) for `text` in mode `m`. */
    method BeginPlayback(text: string, m: AppMode)
      modifies this`isListening, this`isSpeaking, this`effects
      ensures effects == old(effects) + PlaybackPrelude(old(currentSource), old(isListening), recognition, text, m)
      ensures !isListening && isSpeaking
    {
      if currentSource.Some? {
        effects := effects + [StopSource(currentSource.value.handle)];
      }
      if isListening {
        if recognition {
          effects := effects + [StopRecognition];
        }
        isListening := false;
      }
      isSpeaking := true;
      effects := effects + [RequestSpeech(text, m)];
    }

    /**
     * The rest of `handleSend` once the gateway has answered (lines 154-212). `image` is
     * what `generateImage` returned (consulted only for an image request in GENERAL mode)
     * and `reply` the text `sendMessage` returned (undefined as `None`). The AI message,
     * if any, goes to the mode the turn was submitted in, whatever the mode is now.
     * `imageRequest` is the prompt given to `generateImage` and `chatRequest` the mode and
     * message given to `sendMessage`, each when that call is made. `isLoading` always ends false.
     */
    method Complete(turn: Turn, image: Option<string>, reply: Option<string>, now: int)
      returns (imageRequest: Option<string>, chatRequest: Option<(AppMode, string)>)
      requires Valid()
      modifies this`histories, this`snippets, this`activeSnippetId, this`showCodePanel
      modifies this`isLoading, this`isListening, this`isSpeaking, this`effects
      ensures Valid() && !isLoading
      ensures imageRequest == if turn.mode == GENERAL && ImageIntent(turn.text) then Some(turn.text) else None
      ensures chatRequest == if ImageShortcut(turn, image) then None else Some((turn.mode, turn.text))
      ensures var r := TurnReply(turn, image, reply, now);
              histories == if r.Some? then Append(old(histories), turn.mode, r.value) else old(histories)
      ensures var r := TurnReply(turn, image, reply, now);
              if r.Some? && r.value.code.Some? then
                snippets == [NewSnippet(now, turn.snippetCount, r.value.code.value, now)] + old(snippets)
                && activeSnippetId == Some(now) && showCodePanel
              else
                snippets == old(snippets) && activeSnippetId == old(activeSnippetId)
                && showCodePanel == old(showCodePanel)
      ensures var spoken := SpokenText(turn, image, reply, now);
              if spoken.Some? then
                effects == old(effects) + PlaybackPrelude(old(currentSource), old(isListening), recognition,
                                                          spoken.value, turn.mode)
                && !isListening && isSpeaking
              else
                effects == old(effects) && isListening == old(isListening) && isSpeaking == old(isSpeaking)
    {
      imageRequest := if turn.mode == GENERAL && ImageIntent(turn.text) then Some(turn.text) else None;
      if ImageShortcut(turn, image) {
        assert TurnReply(turn, image, reply, now) == Some(ImageMessage(now, image.value));
        assert SpokenText(turn, image, reply, now) == if turn.voiceMode then Some(ImageCaption) else None;
        ShowImage(turn, image.value, now);
        chatRequest := None;
      } else {
        assert ReplyThrows(turn, image, reply) <==> turn.mode == WEB_APP && reply.None?;
        assert !ReplyThrows(turn, image, reply) ==> TurnReply(turn, image, reply, now) == Some(ReplyMessage(turn.mode, reply, now));
        assert !ReplyThrows(turn, image, reply) ==> SpokenText(turn, image, reply, now) == if turn.voiceMode || turn.speaking then Some(ReplyText(reply)) else None;
        ShowReply(turn, reply, now);
        chatRequest := Some((turn.mode, turn.text));
      }
    }

    /** Lines 159-170: the picture is appended to the turn's mode and, in voice mode, its caption read aloud. */
    method ShowImage(turn: Turn, url: string, now: int)
      requires Valid()
      modifies this`histories, this`isLoading, this`isListening, this`isSpeaking, this`effects
      ensures Valid() && !isLoading
      ensures histories == Append(old(histories), turn.mode, ImageMessage(now, url))
      ensures turn.voiceMode ==>
                effects == old(effects) + PlaybackPrelude(old(currentSource), old(isListening), recognition,
                                                          ImageCaption, turn.mode)
                && !isListening && isSpeaking
      ensures !turn.voiceMode ==>
                effects == old(effects) && isListening == old(isListening) && isSpeaking == old(isSpeaking)
    {
      histories := Append(histories, turn.mode, ImageMessage(now, url));
      if turn.voiceMode {
        BeginPlayback(ImageCaption, turn.mode);
      }
      isLoading := false;
    }

    /**
     * Lines 174-212: the chat reply becomes the AI message of the turn's mode; in WEB_APP
     * mode a fenced block also becomes the new active snippet, and an undefined reply
     * throws before anything is added. `isLoading` is cleared on both exits.
     */
    method ShowReply(turn: Turn, reply: Option<string>, now: int)
      requires Valid()
      modifies this`histories, this`snippets, this`activeSnippetId, this`showCodePanel
      modifies this`isLoading, this`isListening, this`isSpeaking, this`effects
      ensures Valid() && !isLoading
      ensures turn.mode == WEB_APP && reply.None? ==>
                histories == old(histories) && snippets == old(snippets)
                && activeSnippetId == old(activeSnippetId) && showCodePanel == old(showCodePanel)
                && effects == old(effects) && isListening == old(isListening) && isSpeaking == old(isSpeaking)
      ensures !(turn.mode == WEB_APP && reply.None?) ==>
                var msg := ReplyMessage(turn.mode, reply, now);
                histories == Append(old(histories), turn.mode, msg)
                && (msg.code.Some? ==>
                      snippets == [NewSnippet(now, turn.snippetCount, msg.code.value, now)] + old(snippets)
                      && activeSnippetId == Some(now) && showCodePanel)
                && (msg.code.None? ==>
                      snippets == old(snippets) && activeSnippetId == old(activeSnippetId)
                      && showCodePanel == old(showCodePanel))
                && (turn.voiceMode || turn.speaking ==>
                      effects == old(effects) + PlaybackPrelude(old(currentSource), old(isListening), recognition,
                                                                msg.text, turn.mode)
                      && !isListening && isSpeaking)
                && (!(turn.voiceMode || turn.speaking) ==>
                      effects == old(effects) && isListening == old(isListening) && isSpeaking == old(isSpeaking))
    {
      if turn.mode == WEB_APP && reply.None? {
        isLoading := false;
        return;
      }
      AddReply(turn, ReplyMessage(turn.mode, reply, now), now);
    }

    /** Lines 185-211 for the AI message `msg` of a chat turn. */
    method AddReply(turn: Turn, msg: Message, now: int)
      requires Valid()
      modifies this`histories, this`snippets, this`activeSnippetId, this`showCodePanel
      modifies this`isLoading, this`isListening, this`isSpeaking, this`effects
      ensures Valid() && !isLoading
      ensures histories == Append(old(histories), turn.mode, msg)
      ensures msg.code.Some? ==>
                snippets == [NewSnippet(now, turn.snippetCount, msg.code.value, now)] + old(snippets)
                && activeSnippetId == Some(now) && showCodePanel
      ensures msg.code.None? ==>
                snippets == old(snippets) && activeSnippetId == old(activeSnippetId)
                && showCodePanel == old(showCodePanel)
      ensures turn.voiceMode || turn.speaking ==>
                effects == old(effects) + PlaybackPrelude(old(currentSource), old(isListening), recognition,
                                                          msg.text, turn.mode)
                && !isListening && isSpeaking
      ensures !(turn.voiceMode || turn.speaking) ==>
                effects == old(effects) && isListening == old(isListening) && isSpeaking == old(isSpeaking)
    {
      if msg.code.Some? {
        RegisterSnippet(msg.code.value, turn.snippetCount, now);
        showCodePanel := true;
      }
      histories := Append(histories, turn.mode, msg);
      if turn.voiceMode || turn.speaking {
        BeginPlayback(msg.text, turn.mode);
      }
      isLoading := false;
    }

    /**
     * The rest of `playResponse` once `generateSpeech` has answered (lines 93-123).
     * `audio` is the decoded payload (`None` for null or an empty string) and
     * `platformFails` says that resuming the audio context or base64 decoding threw.
     * A buffer can only be built from a non-empty, even-length payload; every other
     * case ends speaking.
     */
    method FinishPlayback(audio: Option<seq<byte>>, platformFails: bool, handle: nat) returns (played: bool)
      modifies this`isSpeaking, this`currentSource, this`effects
      ensures played <==> audio.Some? && !platformFails && PlayablePcm(audio.value)
      ensures played ==> currentSource == Some(Source(handle, Decoded(audio.value)))
                         && effects == old(effects) + [StartSource(handle)] && isSpeaking == old(isSpeaking)
      ensures !played ==> !isSpeaking && currentSource == old(currentSource) && effects == old(effects)
    {
      if audio.None? || platformFails || !PlayablePcm(audio.value) {
        isSpeaking := false;
        return false;
      }
      var channel := DecodePcm(audio.value);
      currentSource := Some(Source(handle, channel[..]));
      effects := effects + [StartSource(handle)];
      return true;
    }

    /** `toggleListening` (lines 126-133): stopping waits for the recogniser's end event. */
    method ToggleListening()
      modifies this`isListening, this`effects
      ensures isListening
      ensures old(isListening) ==> effects == old(effects) + (if recognition then [StopRecognition] else [])
      ensures !old(isListening) ==> effects == old(effects) + (if recognition then [StartRecognition] else [])
    {
      if isListening {
        if recognition {
          effects := effects + [StopRecognition];
        }
      } else {
        if recognition {
          effects := effects + [StartRecognition];
        }
        isListening := true;
      }
    }

    /** `onended` of a playing source (lines 111-114): speaking stops, and voice mode listens again. */
    method OnPlaybackEnded()
      modifies this`isSpeaking, this`isListening, this`effects
      ensures !isSpeaking
      ensures isVoiceMode ==> isListening
      ensures isVoiceMode && old(isListening) ==>
                effects == old(effects) + (if recognition then [StopRecognition] else [])
      ensures isVoiceMode && !old(isListening) ==>
                effects == old(effects) + (if recognition then [StartRecognition] else [])
      ensures !isVoiceMode ==> isListening == old(isListening) && effects == old(effects)
    {
      isSpeaking := false;
      if isVoiceMode {
        ToggleListening();
      }
    }

    /** The recogniser's `onend` and `onerror` (lines 62-68). */
    method OnRecognitionStopped()
      modifies this`isListening
      ensures !isListening
    {
      isListening := false;
    }

    /** The recogniser's `onresult` (lines 56-60): the transcript is submitted, then listening ends. */
    method OnRecognitionResult(transcript: string, now: int) returns (turn: Option<Turn>)
      requires Valid()
      modifies this`histories, this`input, this`isLoading, this`isListening
      ensures Valid() && !isListening
      ensures var text := ChosenText(transcript, old(input));
              if Rejected(text, old(isLoading), mode) then
                turn.None? && histories == old(histories) && input == old(input)
                && isLoading == old(isLoading)
              else
                turn == Some(Turn(mode.value, text, isVoiceMode, isSpeaking, |snippets|))
                && histories == Append(old(histories), mode.value, UserMessage(now, text))
                && input == "" && isLoading
    {
      turn := Submit(transcript, now);
      isListening := false;
    }

    /** The replay button of an AI message (line 468). */
    method ReplayMessage(text: string)
      modifies this`isListening, this`isSpeaking, this`effects
      ensures effects == old(effects) + PlaybackPrelude(old(currentSource), old(isListening), recognition,
                                                        text, SpeechMode(mode))
      ensures !isListening && isSpeaking
    {
      BeginPlayback(text, SpeechMode(mode));
    }

    /** The stop-speaking button (lines 372-377). */
    method StopSpeaking()
      modifies this`isSpeaking, this`effects
      ensures currentSource.Some? ==> !isSpeaking && effects == old(effects) + [StopSource(currentSource.value.handle)]
      ensures currentSource.None? ==> isSpeaking == old(isSpeaking) && effects == old(effects)
    {
      if currentSource.Some? {
        effects := effects + [StopSource(currentSource.value.handle)];
        isSpeaking := false;
      }
    }

    /** The clear-chat button (lines 352-355): after confirmation, the current mode's list is emptied. */
    method ClearHistory(confirmed: bool)
      requires Valid() && mode.Some?
      modifies this`histories
      ensures Valid()
      ensures histories == if confirmed then Clear(old(histories), mode.value) else old(histories)
    {
      if confirmed {
        histories := Clear(histories, mode.value);
      }
    }

    /** The delete button of a snippet (lines 311-313). */
    method RemoveSnippet(id: int)
      modifies this`snippets, this`activeSnippetId
      ensures snippets == Without(old(snippets), id)
      ensures activeSnippetId == if old(activeSnippetId) == Some(id) then None else old(activeSnippetId)
    {
      snippets := Without(snippets, id);
      if activeSnippetId == Some(id) {
        activeSnippetId := None;
      }
    }

    /** The Run button of a code message (lines 444-453): `msg.code || ''` becomes a new snippet. */
    method RunCode(code: Option<string>, now: int)
      modifies this`snippets, this`activeSnippetId
      ensures var html := if code.Some? then code.value else "";
              snippets == [NewSnippet(now, |old(snippets)|, html, now)] + old(snippets)
      ensures activeSnippetId == Some(now)
    {
      RegisterSnippet(if code.Some? then code.value else "", |snippets|, now);
    }
  }
}
