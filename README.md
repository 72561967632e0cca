# LINE chat bot: message router

This project models the per-message command router of a LINE chat bot that
relays users' messages to an OpenAI account they register with the bot. The
router is the two webhook handlers in `main.py`:

- `handle_text_message` strips the text of an inbound message. It classifies
  the text by an ordered chain of prefix tests: `/register`, `/help`,
  `/cosplay`, `/clear`, `/image`, and otherwise content. It cuts the argument
  out at a fixed offset.
- It checks that the user has a model bound where one is needed. It updates
  the binding registry (`model_management`), the credential store
  (`storage.save`) and the conversation memory.
- It maps any exception to exactly one reply: `ValueError` becomes
  invalid-token, `KeyError` becomes register-first, and anything else
  removes the user's memory and is translated by message prefix.
- `handle_audio_message` makes the same kind of decision for a voice
  message: binding check, transcription, chat, and its own exception mapping.

Modules:

- `PyText` (`pytext.dfy`) models Python's `str.strip()`, with Python's full
  whitespace set, `s[k:]` and `str.startswith`. `Strip` is characterised
  uniquely (`StripUnique`).
- `Commands` (`commands.dfy`) models classification (`Classify`) and
  argument extraction (`Arg`). It proves that classification is a
  first-match search over the prefix list and how arguments come out.
- `Replies` (`replies.dfy`) holds every reply text of the source, the
  `Message` kinds, and the exception-to-reply mapping for the text and the
  audio handler.
- `Sessions` (`sessions.dfy`) models the three memory calls the router
  makes (`append`, `remove`, `change_system_message`) on a map from user to
  session.
- `LineBot` (`linebot.dfy`) has two layers:
  - a pure specification of each handler (`OnTextMessage`,
    `OnAudioMessage`, and `Run` over a sequence of events, each delivered
    with the `Env` of its own moment);
  - the class `Router`, whose fields are the three stores. Its methods
    update them in place, step by step as the source does, and are proved
    to agree with the specification.
- `LineBotProperties` (`properties.dfy`) proves what the router promises:
  - what each command changes and what it leaves alone;
  - the order of the memory writes around a model call;
  - how failures become replies;
  - that one user's event never touches another user's binding or memory;
  - that any sequence of events keeps the binding registry and the
    credential store in agreement.

The outside world is a value of type `Env` whose fields are pure functions:

- the token liveness check;
- the credential store's write, which may fail with a message;
- chat, image generation and transcription, each returning
  `Ok(value) | Err(message)`;
- URL and video-id detection;
- transcript and page fetching;
- the two summarisers.

A handler's outcome is therefore a function of the stores, the message and
`Env`. This also lets the model state that the chat sees the history that
already contains the new user entry.

Behaviour of `main.py` worth noting, which the model keeps on purpose:

- `/image` from an unregistered user appends the prompt to memory before the
  `KeyError` is raised. That entry stays, because `KeyError` does not clear
  memory.
- `/register` binds a live token (line 71) before it writes the token to the
  credential store (line 72). When the write fails, the generic failure path
  removes the user's memory and replies by the failure mapping. The new binding stays, and
  the store keeps its old record, so the two no longer agree
  (`RegisterSaveFailed`, `SaveFailureBreaksAgreement`).
- `/register` does not check that the token is non-empty. An empty token
  goes to the liveness check like any other.
- The audio handler reports a missing binding as a `ValueError`, with its
  own reply text. Its mapping of generic failures has no overload case.

## Model

| member | source | states |
|---|---|---|
| PyText.Strip | main.py:61 | the result has no leading or trailing whitespace (Python's `isspace` set) |
| PyText.StripCutsOutWhitespace | main.py:61 | what `Strip` leaves is what remains of the text after removing whitespace only, at both ends |
| PyText.StripUnique | main.py:61 | any whitespace-free-at-the-ends string cut out of the text by removing only whitespace is the stripped text, so `Strip` is fully determined |
| PyText.StripIdempotent | main.py:61 | stripping stripped text changes nothing |
| PyText.StripPadded | main.py:61 | whitespace put around a stripped string is removed again and nothing else is |
| PyText.IsSpace | main.py:61 | no contract of its own: the characters Python's `str.isspace` accepts, which `str.strip()` removes; used by `PyText.StripUnique` and `PyText.StripPadded` |
| PyText.StartsWith | main.py:65-158 | no contract of its own: `str.startswith`, as used by the command chain (lines 65-105) and the failure mapping (lines 156-158); used by `Commands.ClassifyIsFirstMatch` and `Replies.UnrecognisedFailurePassedOn` |
| PyText.Slice | main.py:66 | Python's `text[k:]`: length `len-k` or 0 once `k` passes the end, and character `i` of the result is character `k+i` of the text |
| Commands.Arg | main.py:66 | no contract of its own: `strip(text[k:])` at the offset of each command (lines 66, 97 and 106); pinned down by `Commands.SpacedArgument`, `Commands.CosplayWithoutSpaceDropsFirstChar` and `Commands.BareCommandsHaveEmptyArgument` |
| Commands.Classify | main.py:65-118 | no contract of its own: the chain of prefix tests; pinned down by `Commands.ClassifyIsFirstMatch`, `Commands.ContentIsWholeText` and the per-command `Classify…` lemmas |
| Commands.FirstMatch | main.py:65-118 | the index of the first prefix the text starts with, or the number of prefixes when none matches; no earlier prefix matches |
| Commands.ClassifyIsFirstMatch | main.py:65-118 | the command chosen is the first of `/register`, `/help`, `/cosplay`, `/clear`, `/image` the text starts with, content when none |
| Commands.ClassifyHelp | main.py:77 | any text starting with `/help` (such as `/helpme`) is the help command |
| Commands.ClassifyClear | main.py:101 | any text starting with `/clear` is the clear command |
| Commands.ClassifyCosplay | main.py:96-97 | text starting with `/cosplay` is the cosplay command with the argument `strip(text[9:])` |
| Commands.ClassifyImage | main.py:105-106 | text starting with `/image` is the image command with the argument `strip(text[7:])` |
| Commands.ContentIsWholeText | main.py:118-120 | text that starts with no command prefix is content, carrying the whole text |
| Commands.SpacedArgument | main.py:66 | a command word, a space and a stripped argument, stripped as a whole, still start with the word, and the argument is recovered whole whether cut right after the word or after the space |
| Commands.HelpArgument | main.py:61-77 | `/help` followed by anything at all (such as `/help me` or `/helpme`) is the help command after stripping |
| Commands.RegisterArgument | main.py:65-66 | `/register <token>` registers exactly that token |
| Commands.CosplayArgument | main.py:96-97 | `/cosplay <persona>` sets exactly that persona |
| Commands.ImageArgument | main.py:105-106 | `/image <prompt>` asks for exactly that prompt |
| Commands.CosplayWithoutSpaceDropsFirstChar | main.py:96-97 | without the space the fixed offset cuts into the persona: `/cosplay` glued to a persona loses its first character |
| Commands.BareCommandsHaveEmptyArgument | main.py:66-106 | `/register`, `/cosplay` and `/image` with nothing after them carry an empty argument, including `/image`, whose offset lies past the end |
| Replies.RecognisedPrefixesExclusive | main.py:156-159 | no failure message starts with both recognised upstream messages, so the order of the two tests is immaterial |
| Replies.ChannelsDifferOnlyOnOverload | main.py:154-161 | the text and audio handlers give a different reply to a generic failure exactly when it is the overload message (and not the wrong-key one) |
| Replies.Render | main.py:75-161 | no contract of its own: the text of every reply the handlers send (lines 75, 78-94, 99, 103, 151, 153, 157, 159, 161, 189, 191, 195, 197); used by `Replies.ChannelsDifferOnlyOnOverload` and `Replies.UnrecognisedFailurePassedOn` |
| Replies.FailureReply | main.py:150-161 | no contract of its own: the prefix tests on a generic failure's message; pinned down by `Replies.UnrecognisedFailurePassedOn` and `Replies.ChannelsDifferOnlyOnOverload` |
| Replies.ErrorReply | main.py:150-197 | no contract of its own: one reply per exception kind and handler; pinned down by `Replies.UnrecognisedFailurePassedOn`, `Replies.ChannelsDifferOnlyOnOverload` and the `LineBotProperties` lemmas on failures |
| Replies.UnrecognisedFailurePassedOn | main.py:154-161 | a failure is shown to the user verbatim exactly when its message does not start with the wrong-key message and, in the text handler, not with the overload message either |
| Replies.ServerErrorPassedOn | main.py:160-161 | an upstream message that begins with `T` like the overload message, such as "The server had an error", is still shown verbatim by either handler |
| Sessions.AppendEntry | main.py:107 | the entry is added at the end of that user's session, the system message is kept, and other users' sessions are unchanged |
| Sessions.ChangeSystemMessage | main.py:98 | that user's system message becomes the text, the entries are kept, and other users' sessions are unchanged |
| Sessions.RemoveSession | main.py:102 | that user has no memory afterwards, and every other user's session is unchanged |
| LineBot.Answer | main.py:121-148 | no contract of its own: video summary, page summary or chat; pinned down by `LineBotProperties.ChatSeesNewEntry`, `LineBotProperties.EmptyPage` and `LineBotProperties.VideoNeverFetchesPage` |
| LineBot.DispatchCommand | main.py:64-149 | no contract of its own: the `try` body per command, including a failing write of the credential store after the binding is set; pinned down by the per-command lemmas of `LineBotProperties` (`RegisterRejected` to `ImageFailed`) |
| LineBot.HandleCommand | main.py:64-161 | no contract of its own: the text handler's `try` body and `except` clauses on a classified message; every per-command lemma of `LineBotProperties` is stated about it |
| LineBot.OnEvent | main.py:58-165 | no contract of its own: a text message goes to the text handler, a voice message to the audio handler; pinned down by `LineBotProperties.EventOnlyChangesSender` and `EventKeepsStoresAgree` |
| LineBot.DispatchAudio | main.py:174-187 | no contract of its own: the audio `try` body; pinned down by `LineBotProperties.AudioWithoutBinding`, `AudioAnswered`, `AudioTranscriptionFailed` and `AudioChatFailed` |
| LineBot.Catch | main.py:150-161 | no contract of its own: the exception mapping; pinned down by `LineBotProperties.CatchOnlyChangesSender` and the lemmas on failures |
| LineBot.OnTextMessage | main.py:58-162 | no contract of its own: strip, classify, dispatch and catch; pinned down by `LineBotProperties.HelpMessage`, `CosplayMessage`, `ClearMessage` and `EventOnlyChangesSender` |
| LineBot.OnAudioMessage | main.py:165-199 | no contract of its own: dispatch and the audio mapping; pinned down by the `Audio…` lemmas of `LineBotProperties` |
| LineBot.Run | main.py:162 | handling events one after another, each with the outside world as it is at that event, yields exactly one reply per event, the first being that event's reply |
| LineBot.Router.constructor | main.py:213-216 | at start-up the bindings are the restored ones (not re-checked), memory is empty and nothing has been saved |
| LineBot.Router.HandleTextMessage | main.py:58-162 | updating the stores in place yields the new stores and the one reply of the text handler's specification |
| LineBot.Router.Execute | main.py:64-149 | the `try` body, run on a classified message, leaves the stores and ends (reply or exception) as the specification of that command says |
| LineBot.Router.HandleAudioMessage | main.py:174-197 | updating the stores in place yields the new stores and the one reply of the audio handler's specification |
| LineBotProperties.RegisterRejected | main.py:67-70 | a token failing the liveness check changes no store and gets the invalid-token reply |
| LineBotProperties.RegisterAccepted | main.py:71-75 | a live token whose write succeeds is bound to the user and saved for them; memory and other users' bindings are unchanged |
| LineBotProperties.RegisterSaveFailed | main.py:71-72 | a live token whose write fails is still bound to the user, nothing is saved, the user's memory is removed and the write's error is shown by the failure mapping |
| LineBotProperties.HelpChangesNothing | main.py:77-94 | `/help` needs no binding and changes nothing |
| LineBotProperties.CosplayOnlySetsPersona | main.py:96-99 | `/cosplay` needs no binding and only sets that user's system message; the reply echoes the persona |
| LineBotProperties.ClearOnlyRemovesMemory | main.py:101-103 | `/clear` needs no binding and only removes that user's memory |
| LineBotProperties.ContentWithoutBinding | main.py:118-120 | content from an unregistered user gets the register-first reply and leaves every store, memory included, untouched |
| LineBotProperties.ImageWithoutBinding | main.py:105-108 | `/image` from an unregistered user gets the register-first reply, after its prompt was appended to memory, where it stays |
| LineBotProperties.ChatSeesNewEntry | main.py:119-149 | the chat model is asked with the session that already ends with the new user entry; on success exactly the user entry and then the answer are appended, on failure the user's memory is removed |
| LineBotProperties.ContentAnswered | main.py:119-149 | answered content makes exactly two appends, the user's text then the answer, and the reply is the answer's text |
| LineBotProperties.ContentFailed | main.py:125-155 | content whose answer fails (model, transcript, summary or empty page) removes the user's memory, new entry included, and replies by the failure mapping |
| LineBotProperties.ImageAnswered | main.py:105-116 | a generated image appends the prompt then the URL as the assistant's entry and replies with the image |
| LineBotProperties.ImageFailed | main.py:108-110 | a failed image generation removes the user's memory, prompt included, and replies by the failure mapping |
| LineBotProperties.EmptyPage | main.py:134-136 | a page yielding no chunks removes the user's memory and shows the fixed "cannot fetch" message verbatim |
| LineBotProperties.VideoNeverFetchesPage | main.py:122-132 | with a URL and a video id the answer comes from the transcript and its summary and does not depend on the page fetcher or page summariser |
| LineBotProperties.HelpMessage | main.py:61-94 | the message `/help` followed by anything at all (such as `/help me` or `/helpme`) gets the help menu and changes nothing |
| LineBotProperties.CosplayMessage | main.py:61-99 | the message `/cosplay <persona>` sets that persona as the user's system message and echoes it |
| LineBotProperties.ClearMessage | main.py:61-103 | the message `/clear` removes the user's memory and nothing else |
| LineBotProperties.AudioWithoutBinding | main.py:175-189 | a voice message from an unregistered user changes nothing and gets the audio handler's own register-first reply |
| LineBotProperties.AudioAnswered | main.py:178-187 | the transcript is appended, the chat is asked with the session ending in it, and its answer is appended and returned |
| LineBotProperties.AudioTranscriptionFailed | main.py:178-197 | a failed transcription removes the user's memory and replies by the audio failure mapping |
| LineBotProperties.AudioChatFailed | main.py:181-197 | a failed chat after transcription removes the user's memory, transcript included, and replies by the audio failure mapping |
| LineBotProperties.CatchChangesOnlySenderMemory | main.py:150-161 | the exception mapping leaves the bindings, the credential store and every other user's memory as the `try` body left them |
| LineBotProperties.CatchOnlyChangesSender | main.py:150-161 | catching keeps the body's isolation: if the body changed only what belongs to the sender, so does the whole handler |
| LineBotProperties.CommandOnlyChangesSender | main.py:64-161 | a text message changes only its sender's binding and memory, and the credential store only by records for the sender appended at the end |
| LineBotProperties.AudioOnlyChangesSender | main.py:174-197 | a voice message changes only its sender's memory: the bindings, the credential store and every other user's memory are unchanged |
| LineBotProperties.EventOnlyChangesSender | main.py:58-197 | one user's event leaves every other user's binding and memory as they were |
| LineBotProperties.BindingsChangeOnlyOnRegister | main.py:64-149 | the bindings or the credential store change only for `/register` with a live token |
| LineBotProperties.AudioKeepsBindings | main.py:174-197 | a voice message never changes the bindings or the credential store |
| LineBotProperties.LastSaved | main.py:72-74 | the token last saved for a user exists exactly when some record for that user was saved |
| LineBotProperties.LastSavedAppend | main.py:72-74 | saving a record makes it the last for its user and changes no other user's last token |
| LineBotProperties.EventSavesOnlyCheckedTokens | main.py:67-75 | every record an event adds to the credential store holds a token that passed the liveness check of that event |
| LineBotProperties.SaveFailureBreaksAgreement | main.py:71-72 | a failed write for a user whose last saved token differs from the new one leaves the registry and the store disagreeing |
| LineBotProperties.EventKeepsStoresAgree | main.py:67-75 | provided the two stores agreed before the event, after any event in which the credential store's writes succeed each user with a saved record is bound to the token last saved for them |
| LineBotProperties.RunKeepsStoresAgree | main.py:58-197 | that agreement of binding registry and credential store holds after any sequence of events in which every write of the store succeeds |
| LineBotProperties.EventKeepsRegistrations | main.py:58-197 | after any one event every user registered before is still registered, and the credential store only grows |
| LineBotProperties.RunKeepsRegistrations | main.py:58-197 | over any sequence of events a registered user stays registered and the credential store only grows |

## Left out

- Webhook route, signature check, `home` route and the HTTP server (main.py:41-55, 202-221): transport, not routing.
- Storage backend selection and loading (main.py:207-218): I/O. The constructor takes the restored bindings as a parameter, and `storage.save` is modelled as a log of successful writes, with a write that may fail (the `save` function of `Env`). A failing write is taken to raise neither `ValueError` nor `KeyError`.
- `line_bot_api.reply_message` (main.py:162, 199): transport. Each handler returns its one reply as a value.
- Audio download, the temporary file and its removal (main.py:168-172, 198): file I/O. The voice message is a byte sequence handed to the transcription function.
- `OpenAIModel`, `Youtube`, `Website`, the summary readers and `get_role_and_content` (src/models.py, src/service/, src/utils.py are not part of this model). They are the functions of `Env`. Their results already carry the role and content, the image URL and the transcript text.
- Response parsing: a `KeyError` or `IndexError` from reading a collaborator's response is not modelled. This covers `response['data'][0]['url']`, `response['text']`, and `get_role_and_content` (main.py:131, 141, 147, 185). In the text handler such a `KeyError` would give the register-first reply and keep the new user entry in memory. Each collaborator either succeeds with a value or fails with a message.
- Sessions.AppendEntry: the memory of src/memory.py (not part of this model) keeps only a bounded window and adds a default system message. The session here records the override and every entry appended since the user's memory was last removed. The chat function receives the whole session, so trimming is part of the collaborator.
- The audio handler's `KeyError` reply (main.py:190-191): no outcome of the model produces it. The binding is checked before it is read, so in `main.py` it can only come from parsing a response (`response['text']` at line 181, or inside `get_role_and_content` at line 185), which is not modelled. The mapping is kept.
- Sessions.ChangeSystemMessage: that it keeps the user's entries is an assumption about src/memory.py, which is not part of this model; `main.py` does not show it.
- Sessions.RemoveSession: that it also forgets the system-message override is an assumption about src/memory.py, which is not part of this model.
- Concurrency between events: events are handled one at a time (`Run`), as a sequential model.
- Logging (main.py:62): no effect on the outcome.
