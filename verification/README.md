# AI Universe chat screen: a Dafny model

AI Universe is a single-page chat application with three assistant personas:

- **GENERAL**, a neutral assistant that can also draw pictures;
- **WEB_APP**, a web developer whose HTML replies become runnable code snippets;
- **MYRA**, an affectionate Hinglish companion.

The user picks a persona, types or speaks a message, and gets a reply from the Gemini gateway. Replies can be read aloud as 24 kHz PCM speech.

This project models the behaviour of the two files at the heart of the application:

- the chat screen `src/App.tsx`: its session state and its handlers;
- the gateway `src/services/aiService.ts`.

The model proves properties of both.

## Structure

| file | module | what it holds |
|---|---|---|
| `types.dfy` | `Types` | `AppMode`, `Message` and `CodeSnippet` from `src/types.ts`, plus `Option` |
| `text.dfy` | `Text` | the JavaScript string operations the screen relies on: `trim`, `toLowerCase`, `includes`/`indexOf`, decimal rendering |
| `code_fence.dfy` | `CodeFence` | the two lazy fenced-block regexes of the WEB_APP code extraction |
| `pcm.dfy` | `Pcm` | the two decode loops that turn the speech payload into a 24000 Hz mono channel |
| `session.dfy` | `Session` | value-level updates of the per-mode histories and of the newest-first snippet list |
| `gateway.dfy` | `Gateway` | `SYSTEM_INSTRUCTIONS`, the credential test, and the `AIService` class (lazy client, per-mode chat cache, the three calls) |
| `app.dfy` | `ChatApp` | the `App` class: one field per `useState` slot, one method per handler |

### The asynchronous handlers

`handleSend` is split at its first `await`:

- `App.Submit` is the synchronous part. It checks the guard, appends the optimistic user message, clears the input and sets `isLoading`. It returns a `Turn`.
- `App.Complete` runs once the gateway has answered.

The `Turn` holds exactly what the `handleSend` closure captured:

- the mode;
- the text;
- `isVoiceMode`;
- `isSpeaking`;
- `snippets.length`.

`Complete` therefore files the AI message under the mode of the submission, even if the user has switched persona in the meantime.

`playResponse` is split the same way:

- `App.BeginPlayback` runs up to the speech request.
- `App.FinishPlayback` runs once the payload has arrived.

### Platform calls and remote answers

Calls to the platform are appended in order to the `effects` field. These calls are:

- stopping or starting an audio source;
- starting or stopping the speech recogniser;
- requesting speech.

The remote Gemini calls are not modelled as computations. What each one returned, or that it threw, is a parameter:

- `ChatOutcome`
- `ImageOutcome`
- `SpeechOutcome`
- `image` and `reply` of `Complete`

The gateway methods return the request they would send, so contracts can state it.

## Model

| member | source | states |
|---|---|---|
| `Text.Trim` | src/App.tsx:138 | the trimmed string is a piece of the input framed by two all-white-space runs; it neither starts nor ends with white space; it is empty exactly when the input is all white space |
| `Text.TrimIdempotent` | src/App.tsx:187 | trimming an already trimmed string changes nothing |
| `Text.ToLower` | src/App.tsx:156 | the result has the input's length; each capital ASCII letter becomes the letter 32 code points on, every other character is kept, and no capital letter is left |
| `Text.IsBlank` | src/App.tsx:138 | `!finalInput.trim()` holds exactly when every character is JavaScript white space |
| `Text.IndexOf` | src/App.tsx:156 | the result is the first occurrence of the pattern at or after the start index, and none is reported exactly when there is no occurrence |
| `Text.Includes` | src/App.tsx:156 | `includes` holds exactly when the pattern occurs at some index |
| `Text.NatToString` | src/App.tsx:190 | the decimal rendering is non-empty, all digits, and has no leading zero |
| `Text.DecimalRoundTrip` | src/App.tsx:190 | reading back the decimal rendering of n gives n |
| `Text.NatToStringInjective` | src/App.tsx:190 | distinct numbers render as distinct strings |
| `CodeFence.FencedBody` | src/App.tsx:184 | no group exactly when no opener is followed by a fence; otherwise the group lies between the leftmost opener that has a later fence and the first fence after it |
| `CodeFence.ExtractCode` | src/App.tsx:184-187 | no code is extracted exactly when the reply contains no fence followed by a later fence |
| `CodeFence.ExtractCodePrefersHtml` | src/App.tsx:184 | when an html-tagged block exists, the code is the trimmed body of the leftmost one, even if an untagged block comes first |
| `CodeFence.ExtractCodeFallsBack` | src/App.tsx:184 | without an html-tagged block, the code is the trimmed body of the first untagged block |
| `CodeFence.ExtractedCodeHasNoFence` | src/App.tsx:184-187 | because both patterns are lazy, the extracted code never contains a fence |
| `CodeFence.ExtractCodeExample` | src/App.tsx:184-187 | a reply made of one html block padded with spaces yields its body, trimmed |
| `Pcm.Int16LE` | src/App.tsx:105 | the little-endian pair read as a signed 16-bit value lies in [-32768, 32768) and is congruent to lo + 256·hi modulo 65536 |
| `Pcm.Int16RoundTrip` | src/App.tsx:105 | encoding a 16-bit value as a little-endian pair and reading it back gives the value |
| `Pcm.BytesRoundTrip` | src/App.tsx:105 | every byte pair is the encoding of the value read from it |
| `Pcm.Sample` | src/App.tsx:105 | each sample lies in [-1, 1), and times 32768 it is the int16 read from its byte pair |
| `Pcm.Decoded` | src/App.tsx:102-105 | an even payload of n bytes gives n/2 samples; sample i is the value `Sample` reads from bytes 2i and 2i+1, and lies in [-1, 1) |
| `Pcm.DecodePcm` | src/App.tsx:97-105 | the two loops produce a channel of length len/2 equal to `Decoded` of the payload |
| `Pcm.DecodedExample` | src/App.tsx:105 | bytes 00 00 00 80 decode to the samples 0.0 and -1.0 |
| `Pcm.DecodedInjective` | src/App.tsx:97-105 | distinct payloads of the same length decode to distinct channels |
| `Session.EmptyHistories` | src/App.tsx:21-25 | the initial histories have an entry for every mode, and each entry is empty |
| `Session.Append` | src/App.tsx:147-150 | the message goes to the end of the chosen mode's list; every other mode is unchanged |
| `Session.Clear` | src/App.tsx:354 | the chosen mode's list becomes empty; every other mode is unchanged |
| `Session.AppendThenClear` | src/App.tsx:352-355 | clearing a mode discards a message just appended to it, and touches no other mode |
| `Session.SnippetName` | src/App.tsx:190 | the name is "Snippet " followed by the decimal rendering of count + 1: all digits, no leading zero, and reading back as count + 1 |
| `Session.SnippetNameExamples` | src/App.tsx:190 | counts 0, 1 and 2 give "Snippet 1", "Snippet 2" and "Snippet 3" |
| `Session.SnippetNameInjective` | src/App.tsx:190 | two names are equal exactly when they were made at the same count |
| `Session.SnippetNameRepeatsAfterRemoval` | src/App.tsx:311-313 | after "Snippet 2" is deleted from three snippets headed by "Snippet 3", the next snippet is named "Snippet 3" again, the name of the snippet at the front |
| `Session.NewSnippet` | src/App.tsx:188-193 | the new snippet carries the given id, html and time, and the name for the current count |
| `Session.Without` | src/App.tsx:312 | a snippet survives the filter exactly when it was present and its id differs |
| `Session.WithoutAbsent` | src/App.tsx:312 | removing an id that no snippet carries leaves the list unchanged |
| `Session.WithoutConcat` | src/App.tsx:312 | the filter distributes over concatenation, so the survivors keep their order |
| `Session.WithoutSingle` | src/App.tsx:312 | on one snippet, the filter drops it exactly when it carries the id |
| `Gateway.HasCredentials` | src/services/aiService.ts:31-34 | a key is usable exactly when it is defined, non-empty and free of the placeholder text |
| `Gateway.HasCredentialsExamples` | src/services/aiService.ts:32 | a missing key, an empty key and the placeholder key are refused; an ordinary key is accepted |
| `Gateway.ClientAfterInit` | src/services/aiService.ts:35-37 | a refused key leaves the client as it was; an accepted key ensures a client exists; an existing client is kept |
| `Gateway.ClientBuiltOnce` | src/services/aiService.ts:35-37 | initialising a second time changes nothing |
| `Gateway.ChatConfigFor` | src/services/aiService.ts:44-49 | the chat uses the chat model and the mode's own instruction; the temperature is 0.9 exactly for MYRA and 0.7 otherwise |
| `Gateway.SystemInstruction` | src/services/aiService.ts:3-24 | the WEB_APP instruction asks for code in an html-tagged block; the MYRA instruction names Myra and asks for Hinglish; the GENERAL instruction says it is NOT romantic |
| `Gateway.ConcatIncludes` | src/services/aiService.ts:3-24 | a pattern found in one line of an instruction is found in the whole instruction |
| `Gateway.InstructionsDistinct` | src/services/aiService.ts:3-24 | the three personas get pairwise different system instructions |
| `Gateway.ImageRequestFor` | src/services/aiService.ts:71-75 | the image request carries the prompt, the image model and a 1:1 aspect ratio |
| `Gateway.SpeechPrefix` | src/services/aiService.ts:92-95 | MYRA gets the affectionate Hinglish prefix and every other mode the plain one; both end in ": " |
| `Gateway.SpeechRequestFor` | src/services/aiService.ts:92-106 | the narration is the mode's tone prefix followed by the text itself; the voice is Kore for MYRA and Zephyr otherwise |
| `Gateway.SpeechRequestInjective` | src/services/aiService.ts:92-95 | within one mode, different texts give different narration requests |
| `Gateway.Interpolated` | src/services/aiService.ts:79 | a template literal renders a defined string as itself and undefined as "undefined" |
| `Gateway.FirstInlineData` | src/services/aiService.ts:77-81 | the result is the `inlineData` object of the first part that has one, and it is absent exactly when no part has one |
| `Gateway.ImageUriFromParts` | src/services/aiService.ts:77-82 | the loop returns the PNG data URI of the first `inlineData` object's data, rendered "undefined" when the object has no data, or null when no part has such an object |
| `Gateway.ImageUriWithoutData` | src/services/aiService.ts:77-81 | a first `inlineData` object without data ends the scan with the URI "data:image/png;base64,undefined" rather than null |
| `Gateway.ChatReply` | src/services/aiService.ts:59-65 | a thrown chat call gives the apology text; otherwise the reply text is passed on, even when it is undefined |
| `Gateway.SpeechPayload` | src/services/aiService.ts:97-115 | the payload is the returned data when that is a non-empty string, and null when the call threw or the data is missing or empty |
| `Gateway.AIService.constructor` | src/services/aiService.ts:26-28 | a new service has no client and no chats, so every cached chat trivially has its mode's configuration |
| `Gateway.AIService.InitAI` | src/services/aiService.ts:30-39 | the result is the credential test, and the client follows `ClientAfterInit` |
| `Gateway.AIService.GetChat` | src/services/aiService.ts:41-53 | null exactly without credentials; otherwise the mode's cached chat, created with the mode's configuration on first request; the chat returned always has the mode's configuration; other modes' chats never change |
| `Gateway.AIService.SendMessage` | src/services/aiService.ts:55-66 | without credentials, the key-missing text and no message sent; otherwise the message goes to the mode's cached chat, which was created with `ChatConfigFor` of that mode, and the reply follows `ChatReply`; every cached chat keeps its mode's configuration |
| `Gateway.AIService.GenerateImage` | src/services/aiService.ts:68-87 | without credentials, null and no request; otherwise the image request is sent; a thrown call gives null; parts give the data URI of the first `inlineData` object, as `ImageUriFromParts` |
| `Gateway.AIService.GenerateSpeech` | src/services/aiService.ts:89-116 | without credentials, null and no request; otherwise the mode's narration request is sent and the payload follows `SpeechPayload` |
| `ChatApp.ImageIntent` | src/App.tsx:156 | the image shortcut is asked for exactly when "image" or "bnao" occurs somewhere in the lower-cased text |
| `ChatApp.ToLowerIdempotent` | src/App.tsx:156 | lower-casing twice is lower-casing once |
| `ChatApp.ImageIntentIgnoresCase` | src/App.tsx:156 | the image-intent test gives the same answer on a text and on its lower-cased form |
| `ChatApp.ImageIntentExamples` | src/App.tsx:156 | "Ek IMAGE bnao" asks for an image and "Hello" does not |
| `ChatApp.ChosenText` | src/App.tsx:137 | a non-empty override wins over the input; an empty or missing override falls back to the input |
| `ChatApp.Rejected` | src/App.tsx:138 | a send is refused exactly when the text is all white space, a turn is in flight, or no mode is chosen |
| `ChatApp.UserMessage` | src/App.tsx:140-145 | the optimistic message is from the user, carries the chosen text, and has no type, code or image |
| `ChatApp.ImageMessage` | src/App.tsx:159-166 | the picture message is from the AI, carries the fixed caption and the image URL, and is typed image |
| `ChatApp.ReplyText` | src/App.tsx:177 | the message text is never empty: the reply when it is a non-empty string, "..." otherwise |
| `ChatApp.ReplyMessage` | src/App.tsx:175-187 | the AI message carries the reply text; it is typed code and carries the extracted code exactly when the mode is WEB_APP and the reply holds a fenced block |
| `ChatApp.TurnReply` | src/App.tsx:156-203 | a completed turn adds no message exactly when a WEB_APP reply is undefined; the message is the picture exactly when the image shortcut applied; otherwise it is the reply, typed code exactly as `ReplyMessage` says; the whole message is `ImageMessage` for the picture and `ReplyMessage` for the reply, so an untyped reply carries no code |
| `ChatApp.SpokenText` | src/App.tsx:168-206 | a turn speaks only the text of the message it added; a picture is spoken exactly in voice mode; a chat reply is spoken exactly in voice mode or while already speaking |
| `ChatApp.PlaybackPrelude` | src/App.tsx:80-92 | a current source is stopped first, the recogniser is stopped exactly when listening and available, and the speech request comes last and only once; no other call is made |
| `ChatApp.SpeechMode` | src/App.tsx:92 | speech is requested in the chosen mode, and in GENERAL when none is chosen |
| `ChatApp.PlayablePcm` | src/App.tsx:97-105 | a payload can be decoded exactly when `len / 2` is at least one frame and every pair index of the fill loop reads two existing bytes |
| `ChatApp.FindSnippet` | src/App.tsx:264 | the found snippet is the first one in the list with the selected id; nothing is found exactly when no snippet has that id |
| `ChatApp.FindSnippetPrefersFront` | src/App.tsx:264 | of two snippets sharing an id, the one nearer the front is shown |
| `ChatApp.RemovedSnippetNotFound` | src/App.tsx:264 | after a snippet is removed, a selection of its id resolves to nothing |
| `ChatApp.App.constructor` | src/App.tsx:20-38 | the screen starts with no mode, empty histories for every mode, no snippets, an empty input, every flag off, and no source |
| `ChatApp.App.SelectMode` | src/App.tsx:246 | choosing a persona or going back sets the mode; histories are kept |
| `ChatApp.App.SetInput` | src/App.tsx:515 | the input holds the typed text |
| `ChatApp.App.ToggleVoiceMode` | src/App.tsx:385 | voice mode flips |
| `ChatApp.App.SetCodePanel` | src/App.tsx:364 | the code panel is shown or hidden as asked |
| `ChatApp.App.SelectSnippet` | src/App.tsx:289 | the chosen snippet becomes the active one |
| `ChatApp.App.Submit` | src/App.tsx:135-152 | a blank text, a turn in flight or no mode changes nothing; otherwise the user message is appended to the current mode, the input is cleared, the turn is in flight, and the returned turn records what the closure captured |
| `ChatApp.App.RegisterSnippet` | src/App.tsx:188-195 | the new snippet goes in front of the list and becomes the active one |
| `ChatApp.App.BeginPlayback` | src/App.tsx:79-92 | the platform calls follow `PlaybackPrelude`; listening ends and speaking begins |
| `ChatApp.App.Complete` | src/App.tsx:154-212 | `generateImage` is asked for the submitted text exactly when the turn is GENERAL and the text asks for an image; `sendMessage` is given the submitted mode and text exactly when the image shortcut did not apply; the message of `TurnReply` goes to the submitted mode; a message carrying code adds the active snippet and opens the panel; `SpokenText` starts playback; loading always ends |
| `ChatApp.App.ShowImage` | src/App.tsx:158-170 | the picture message goes to the turn's mode, and its caption is spoken exactly in voice mode |
| `ChatApp.App.ShowReply` | src/App.tsx:174-212 | an undefined WEB_APP reply changes nothing but loading; otherwise the reply message is appended, any extracted code becomes the active snippet, and the reply is spoken exactly in voice mode or while speaking |
| `ChatApp.App.AddReply` | src/App.tsx:185-211 | the AI message goes to the turn's mode; a message with code adds a snippet named after the captured count, makes it active and opens the panel; the message is spoken exactly in voice mode or while speaking |
| `ChatApp.App.FinishPlayback` | src/App.tsx:93-123 | a source starts exactly when a payload arrived, the platform did not fail, and the payload is non-empty and even; it then plays `Decoded` of the payload; every other case ends speaking |
| `ChatApp.App.ToggleListening` | src/App.tsx:126-133 | a listening screen asks the recogniser to stop and stays listening until it ends; otherwise the recogniser starts and listening begins |
| `ChatApp.App.OnPlaybackEnded` | src/App.tsx:111-114 | speaking ends, and in voice mode the listening toggle runs |
| `ChatApp.App.OnRecognitionStopped` | src/App.tsx:62-68 | listening ends |
| `ChatApp.App.OnRecognitionResult` | src/App.tsx:56-60 | the transcript is submitted as `Submit` describes, then listening ends |
| `ChatApp.App.ReplayMessage` | src/App.tsx:468 | replaying a message starts playback in the current mode, GENERAL when none is chosen |
| `ChatApp.App.StopSpeaking` | src/App.tsx:372-377 | with a source, it is stopped and speaking ends; without one, nothing changes |
| `ChatApp.App.ClearHistory` | src/App.tsx:352-355 | after confirmation, the current mode's list is emptied and the other modes are kept; without confirmation, nothing changes |
| `ChatApp.App.RemoveSnippet` | src/App.tsx:311-313 | the list loses every snippet with the id, and a selection of that id is cleared |
| `ChatApp.App.RunCode` | src/App.tsx:444-453 | the message's code, or the empty string, becomes a new snippet in front of the list, named after the current count, and becomes the active one |

## Left out

- The JSX rendering, styling, `cn`, scrolling, animations and the `CodeRunner` preview are presentation. `src/components/CodeRunner.tsx` is not part of this model.
- Web Audio is not modelled:
  - the audio context and its resumption are abstracted as the `platformFails` flag of `FinishPlayback`;
  - the playback rates 1.15 and 1.05 are not modelled;
  - the `AudioBuffer` is represented by its decoded samples.
- Speech recognition setup is a platform capability, given as the `recognition` flag:
  - the language is not modelled;
  - the continuous and interim options are not modelled.
- The remote Gemini calls and the chat session's own remote history are outside the program. Their results are parameters.
- `atob` and base64 are not modelled. The payload enters `FinishPlayback` as its decoded bytes.
- The clipboard buttons and `alert` are not modelled. `confirm` is the `confirmed` parameter of `ClearHistory`.
- `Date.now()` and `new Date()` are the `now` parameter. Both phases of a send read one clock value each.
- Ids are integers rather than their decimal strings. Ids are not claimed to be unique: the source does not make them so.
- `ChatApp.App.BeginPlayback` reads the current `isListening`, and `ChatApp.App.OnPlaybackEnded` the current `isVoiceMode`. The source reads both from the render in which `playResponse` was created, and can see stale values. Stale React closures are modelled only through what `Turn` captures.
- `ChatApp.App.OnPlaybackEnded`: `onended` also fires when a source is stopped. The model treats it as a separate event that the caller delivers.
- `Text.ToLower`: `toLowerCase` is modelled on the ASCII letters only, because Unicode case mapping is not modelled.
- `ChatApp.App.OnRecognitionResult` reads the current state. In the source, the recogniser's handler is installed by the effect at `src/App.tsx:48-70`, which re-runs only when the mode changes. Its `handleSend` therefore sees `input`, `isLoading`, `isVoiceMode`, `isSpeaking` and `snippets` as they were in that render. A spoken submission is then not held back by a turn that is in flight now, and its turn records stale voice flags and a stale snippet count.
- `Gateway.SpeechPayload`: the optional chain over the candidates is summarised by the `SpeechOutcome` parameter.
