/**
 * What the router promises, stated over the handlers' outcomes: which stores
 * each command changes and which it leaves alone, the order of the memory
 * writes around a model call, how failures become replies, and invariants of
 * any sequence of events.
 *
 * The text handler's outcome is HandleCommand applied to the classification
 * of the stripped text, so the lemmas below are stated per command; the
 * module Commands says which messages are classified as which command.
 */
module LineBotProperties {
  import opened Wrappers
  import opened PyText
  import opened Commands
  import opened Replies
  import opened Sessions
  import opened LineBot

  // ---------------------------------------------------------------- register

  /** A token that fails the liveness check changes nothing and gets the invalid-token reply. */
  lemma RegisterRejected(s: RouterState, user: UserId, env: Env, key: Token)
    requires !env.tokenValid(key)
    ensures HandleCommand(s, user, Register(key), env) == Outcome(s, TextReply(InvalidToken))
  {
  }

  /** A live token that the store writes is bound to the user and saved; nothing else changes. */
  lemma RegisterAccepted(s: RouterState, user: UserId, env: Env, key: Token)
    requires env.tokenValid(key) && env.save(user, key).None?
    ensures HandleCommand(s, user, Register(key), env)
         == Outcome(s.(bindings := s.bindings[user := key], saved := s.saved + [SaveRecord(user, key)]),
                    TextReply(Registered))
  {
  }

  /**
   * A live token whose write fails stays bound: the binding is set before the
   * write, so only the memory removal of a generic failure follows, and the
   * store keeps what it had.
   */
  lemma RegisterSaveFailed(s: RouterState, user: UserId, env: Env, key: Token, m: string)
    requires env.tokenValid(key) && env.save(user, key) == Some(m)
    ensures HandleCommand(s, user, Register(key), env)
         == Outcome(s.(bindings := s.bindings[user := key], memory := RemoveSession(s.memory, user)),
                    TextReply(FailureReply(TextChannel, m)))
  {
  }

  // ------------------------------------------- commands that need no binding

  /** `/help` needs no registration and changes nothing. */
  lemma HelpChangesNothing(s: RouterState, user: UserId, env: Env)
    ensures HandleCommand(s, user, Help, env) == Outcome(s, TextReply(HelpMenu))
  {
  }

  /** `/cosplay` needs no registration and only sets that user's system message. */
  lemma CosplayOnlySetsPersona(s: RouterState, user: UserId, env: Env, persona: string)
    ensures HandleCommand(s, user, Cosplay(persona), env)
         == Outcome(s.(memory := ChangeSystemMessage(s.memory, user, persona)), TextReply(PersonaSet(persona)))
  {
  }

  /** `/clear` needs no registration and only removes that user's memory. */
  lemma ClearOnlyRemovesMemory(s: RouterState, user: UserId, env: Env)
    ensures HandleCommand(s, user, Clear, env)
         == Outcome(s.(memory := RemoveSession(s.memory, user)), TextReply(Cleared))
  {
  }

  // ------------------------------------------------------ missing binding

  /** Content from an unregistered user fails before memory is touched. */
  lemma ContentWithoutBinding(s: RouterState, user: UserId, text: string, env: Env)
    requires user !in s.bindings
    ensures HandleCommand(s, user, Content(text), env) == Outcome(s, TextReply(RegisterFirst))
  {
  }

  /**
   * `/image` from an unregistered user fails too, but only after the prompt
   * was appended; the entry stays, since a missing binding does not clear memory.
   */
  lemma ImageWithoutBinding(s: RouterState, user: UserId, env: Env, prompt: string)
    requires user !in s.bindings
    ensures HandleCommand(s, user, Image(prompt), env)
         == Outcome(s.(memory := AppendEntry(s.memory, user, Entry(UserRole, prompt))), TextReply(RegisterFirst))
  {
  }

  // ------------------------------------------------------ content and image

  /** The session a model call sees: the user's session with the new user entry already appended. */
  function Asked(s: RouterState, user: UserId, text: string): (session: Session)
    ensures session == SessionOf(AppendEntry(s.memory, user, Entry(UserRole, text)), user)
  {
    var before := SessionOf(s.memory, user);
    Session(before.system, before.entries + [Entry(UserRole, text)])
  }

  /**
   * A chat message is answered from the history that already holds it; on
   * success exactly the user entry and then the model's entry are appended,
   * on failure the user's memory is removed.
   */
  lemma ChatSeesNewEntry(s: RouterState, user: UserId, text: string, env: Env)
    requires user in s.bindings && env.urlOf(text).None?
    ensures var o := HandleCommand(s, user, Content(text), env);
      match env.chat(s.bindings[user], Asked(s, user, text))
      case Ok(e) =>
        && o.reply == TextReply(Verbatim(e.content))
        && SessionOf(o.state.memory, user) == Session(SessionOf(s.memory, user).system,
             SessionOf(s.memory, user).entries + [Entry(UserRole, text), e])
      case Err(m) =>
        && o.reply == TextReply(FailureReply(TextChannel, m))
        && user !in o.state.memory
  {
  }

  /** Content that is answered: two appends, the user's text first, nothing else changes. */
  lemma ContentAnswered(s: RouterState, user: UserId, text: string, env: Env, e: Entry)
    requires user in s.bindings
    requires Answer(text, s.bindings[user], Asked(s, user, text), env) == Ok(e)
    ensures HandleCommand(s, user, Content(text), env)
         == Outcome(s.(memory := AppendEntry(AppendEntry(s.memory, user, Entry(UserRole, text)), user, e)),
                    TextReply(Verbatim(e.content)))
  {
  }

  /** Content whose answer fails (model, transcript or empty page): the user's memory is removed. */
  lemma ContentFailed(s: RouterState, user: UserId, text: string, env: Env, m: string)
    requires user in s.bindings
    requires Answer(text, s.bindings[user], Asked(s, user, text), env) == Err(m)
    ensures HandleCommand(s, user, Content(text), env)
         == Outcome(s.(memory := RemoveSession(s.memory, user)), TextReply(FailureReply(TextChannel, m)))
  {
    var m1 := AppendEntry(s.memory, user, Entry(UserRole, text));
    assert RemoveSession(m1, user) == RemoveSession(s.memory, user);
  }

  /** An image that is generated: the prompt, then the URL as the assistant's entry. */
  lemma ImageAnswered(s: RouterState, user: UserId, env: Env, prompt: string, url: string)
    requires user in s.bindings && env.image(s.bindings[user], prompt) == Ok(url)
    ensures HandleCommand(s, user, Image(prompt), env)
         == Outcome(s.(memory := AppendEntry(AppendEntry(s.memory, user, Entry(UserRole, prompt)), user, Entry(AssistantRole, url))),
                    ImageReply(url))
  {
  }

  /** An image that fails: the user's memory is removed, the prompt entry included. */
  lemma ImageFailed(s: RouterState, user: UserId, env: Env, prompt: string, m: string)
    requires user in s.bindings && env.image(s.bindings[user], prompt) == Err(m)
    ensures HandleCommand(s, user, Image(prompt), env)
         == Outcome(s.(memory := RemoveSession(s.memory, user)), TextReply(FailureReply(TextChannel, m)))
  {
    var m1 := AppendEntry(s.memory, user, Entry(UserRole, prompt));
    assert RemoveSession(m1, user) == RemoveSession(s.memory, user);
  }

  /** A page that yields no text: memory removed and the fixed message shown as it is. */
  lemma EmptyPage(s: RouterState, user: UserId, text: string, env: Env, url: string)
    requires user in s.bindings
    requires env.urlOf(text) == Some(url) && env.videoIdOf(text).None? && env.pageChunks(url) == []
    ensures HandleCommand(s, user, Content(text), env)
         == Outcome(s.(memory := RemoveSession(s.memory, user)), TextReply(Verbatim(EmptyPageError)))
  {
    assert EmptyPageError[0] == '無' && WrongKeyPrefix[0] == 'I' && OverloadedPrefix[0] == 'T';
    FirstCharRulesOut(EmptyPageError, WrongKeyPrefix);
    FirstCharRulesOut(EmptyPageError, OverloadedPrefix);
    UnrecognisedFailurePassedOn(TextChannel, EmptyPageError);
    ContentFailed(s, user, text, env, EmptyPageError);
  }

  /** A message with a URL and a video id is summarised from the transcript; the page is never fetched. */
  lemma VideoNeverFetchesPage(token: Token, session: Session, text: string, env: Env,
                              pages: string -> seq<string>, summarize: (Token, seq<string>) -> Result<Entry>)
    requires env.urlOf(text).Some? && env.videoIdOf(text).Some?
    ensures Answer(text, token, session, env)
         == Answer(text, token, session, env.(pageChunks := pages, summarizePage := summarize))
    ensures Answer(text, token, session, env)
         == match env.transcriptChunks(env.videoIdOf(text).value)
            case Err(m) => Err(m)
            case Ok(chunks) => env.summarizeVideo(token, chunks)
  {
  }

  // ------------------------------------------------- whole text messages

  /** `/help` and anything after it, such as `/help me` or `/helpme`, gets the help menu and changes nothing. */
  lemma HelpMessage(s: RouterState, user: UserId, rest: string, env: Env)
    ensures OnTextMessage(s, user, "/help" + rest, env) == Outcome(s, TextReply(HelpMenu))
  {
    HelpArgument(rest);
    HelpChangesNothing(s, user, env);
  }

  /** `/cosplay ` and a persona set that persona as the user's system message and echo it. */
  lemma CosplayMessage(s: RouterState, user: UserId, persona: string, env: Env)
    requires NoOuterSpace(persona)
    ensures OnTextMessage(s, user, "/cosplay " + persona, env)
         == Outcome(s.(memory := ChangeSystemMessage(s.memory, user, persona)), TextReply(PersonaSet(persona)))
  {
    CosplayArgument(persona);
    CosplayOnlySetsPersona(s, user, env, persona);
  }

  /** `/clear` removes the user's memory and nothing else. */
  lemma ClearMessage(s: RouterState, user: UserId, env: Env)
    ensures OnTextMessage(s, user, "/clear", env) == Outcome(s.(memory := RemoveSession(s.memory, user)), TextReply(Cleared))
  {
    StartsWithPrefix("/clear", "");
    assert "/clear" + "" == "/clear";
    StripKeeps("/clear");
    ClassifyClear("/clear");
    ClearOnlyRemovesMemory(s, user, env);
  }

  // ------------------------------------------------------------------ audio

  /** A voice message from an unregistered user gets the audio handler's own register-first reply. */
  lemma AudioWithoutBinding(s: RouterState, user: UserId, audio: Audio, env: Env)
    requires user !in s.bindings
    ensures OnAudioMessage(s, user, audio, env) == Outcome(s, TextReply(AudioRegisterFirst))
  {
  }

  /** A voice message is transcribed, the words appended, and the chat sees them before its answer is appended. */
  lemma AudioAnswered(s: RouterState, user: UserId, audio: Audio, env: Env, words: string, e: Entry)
    requires user in s.bindings && env.transcribe(s.bindings[user], audio) == Ok(words)
    requires env.chat(s.bindings[user], Asked(s, user, words)) == Ok(e)
    ensures OnAudioMessage(s, user, audio, env)
         == Outcome(s.(memory := AppendEntry(AppendEntry(s.memory, user, Entry(UserRole, words)), user, e)),
                    TextReply(Verbatim(e.content)))
  {
  }

  /** A transcription that fails removes the user's memory; the audio mapping has no overload reply. */
  lemma AudioTranscriptionFailed(s: RouterState, user: UserId, audio: Audio, env: Env, m: string)
    requires user in s.bindings && env.transcribe(s.bindings[user], audio) == Err(m)
    ensures OnAudioMessage(s, user, audio, env)
         == Outcome(s.(memory := RemoveSession(s.memory, user)), TextReply(FailureReply(AudioChannel, m)))
  {
  }

  /** A chat that fails after the transcription removes the user's memory, the new words included. */
  lemma AudioChatFailed(s: RouterState, user: UserId, audio: Audio, env: Env, words: string, m: string)
    requires user in s.bindings && env.transcribe(s.bindings[user], audio) == Ok(words)
    requires env.chat(s.bindings[user], Asked(s, user, words)) == Err(m)
    ensures OnAudioMessage(s, user, audio, env)
         == Outcome(s.(memory := RemoveSession(s.memory, user)), TextReply(FailureReply(AudioChannel, m)))
  {
    var m1 := AppendEntry(s.memory, user, Entry(UserRole, words));
    assert RemoveSession(m1, user) == RemoveSession(s.memory, user);
  }

  // -------------------------------------------------------------- isolation

  /**
   * What one event may change: the sender's binding and memory, and the
   * credential store only by records for the sender appended at the end.
   */
  ghost predicate OnlySenderChanged(s: RouterState, t: RouterState, user: UserId) {
    && t.bindings - {user} == s.bindings - {user}
    && t.memory - {user} == s.memory - {user}
    && s.saved <= t.saved
    && (forall i :: |s.saved| <= i < |t.saved| ==> t.saved[i].user == user)
  }

  lemma AppendOnlyChangesUser(memory: map<UserId, Session>, user: UserId, e: Entry)
    ensures AppendEntry(memory, user, e) - {user} == memory - {user}
  {
    var m := AppendEntry(memory, user, e);
    assert forall v :: v in m - {user} <==> v in memory - {user};
  }

  lemma RemoveOnlyChangesUser(memory: map<UserId, Session>, user: UserId)
    ensures RemoveSession(memory, user) - {user} == memory - {user}
  {
  }

  /**
   * The `except` clauses change nothing beyond the sender's memory: the
   * bindings, the credential store and every other user's memory are as the
   * body left them.
   */
  lemma CatchChangesOnlySenderMemory(step: Step, user: UserId, channel: Channel)
    ensures Catch(step, user, channel).state.bindings == step.state.bindings
    ensures Catch(step, user, channel).state.saved == step.state.saved
    ensures Catch(step, user, channel).state.memory - {user} == step.state.memory - {user}
  {
    if step.Threw? && step.error.Failure? {
      RemoveOnlyChangesUser(step.state.memory, user);
    }
  }

  /** Catching keeps the isolation of the body it catches. */
  lemma CatchOnlyChangesSender(s: RouterState, step: Step, user: UserId, channel: Channel)
    requires OnlySenderChanged(s, step.state, user)
    ensures OnlySenderChanged(s, Catch(step, user, channel).state, user)
  {
    CatchChangesOnlySenderMemory(step, user, channel);
  }

  /** A text message, whatever its command, changes only what belongs to its sender. */
  lemma CommandOnlyChangesSender(s: RouterState, user: UserId, command: Command, env: Env)
    ensures OnlySenderChanged(s, HandleCommand(s, user, command, env).state, user)
  {
    var step := DispatchCommand(s, user, command, env);
    match command {
      case Register(key) =>
        assert forall v :: v in step.state.bindings - {user} <==> v in s.bindings - {user};
      case Help =>
      case Cosplay(persona) =>
        var m := ChangeSystemMessage(s.memory, user, persona);
        assert forall v :: v in m - {user} <==> v in s.memory - {user};
      case Clear =>
        RemoveOnlyChangesUser(s.memory, user);
      case Image(prompt) =>
        var m1 := AppendEntry(s.memory, user, Entry(UserRole, prompt));
        AppendOnlyChangesUser(s.memory, user, Entry(UserRole, prompt));
        if user in s.bindings && env.image(s.bindings[user], prompt).Ok? {
          AppendOnlyChangesUser(m1, user, Entry(AssistantRole, env.image(s.bindings[user], prompt).value));
        }
      case Content(text) =>
        if user in s.bindings {
          var m1 := AppendEntry(s.memory, user, Entry(UserRole, text));
          AppendOnlyChangesUser(s.memory, user, Entry(UserRole, text));
          var answer := Answer(text, s.bindings[user], SessionOf(m1, user), env);
          if answer.Ok? {
            AppendOnlyChangesUser(m1, user, answer.value);
          }
        }
    }
    CatchOnlyChangesSender(s, step, user, TextChannel);
  }

  /** A voice message changes only its sender's memory. */
  lemma AudioOnlyChangesSender(s: RouterState, user: UserId, audio: Audio, env: Env)
    ensures OnlySenderChanged(s, OnAudioMessage(s, user, audio, env).state, user)
    ensures OnAudioMessage(s, user, audio, env).state.bindings == s.bindings
    ensures OnAudioMessage(s, user, audio, env).state.saved == s.saved
  {
    AudioKeepsBindings(s, user, audio, env);
    var step := DispatchAudio(s, user, audio, env);
    if user in s.bindings && env.transcribe(s.bindings[user], audio).Ok? {
      var words := env.transcribe(s.bindings[user], audio).value;
      var m1 := AppendEntry(s.memory, user, Entry(UserRole, words));
      AppendOnlyChangesUser(s.memory, user, Entry(UserRole, words));
      var answer := env.chat(s.bindings[user], SessionOf(m1, user));
      if answer.Ok? {
        AppendOnlyChangesUser(m1, user, answer.value);
      }
    }
    CatchOnlyChangesSender(s, step, user, AudioChannel);
  }

  /** One user's event leaves every other user's binding and memory as they were. */
  lemma EventOnlyChangesSender(s: RouterState, ev: Event, env: Env)
    ensures OnlySenderChanged(s, OnEvent(s, ev, env).state, ev.user)
  {
    match ev {
      case TextMessage(u, t) => CommandOnlyChangesSender(s, u, Classify(Strip(t)), env);
      case AudioMessage(u, a) => AudioOnlyChangesSender(s, u, a, env);
    }
  }

  // ----------------------------------------------- bindings and the store

  /** Only a `/register` with a live token touches the bindings or the credential store. */
  lemma BindingsChangeOnlyOnRegister(s: RouterState, user: UserId, command: Command, env: Env)
    ensures var t := HandleCommand(s, user, command, env).state;
      (t.bindings != s.bindings || t.saved != s.saved) ==> command.Register? && env.tokenValid(command.token)
  {
  }

  /** A voice message never touches the bindings or the credential store. */
  lemma AudioKeepsBindings(s: RouterState, user: UserId, audio: Audio, env: Env)
    ensures OnAudioMessage(s, user, audio, env).state.bindings == s.bindings
    ensures OnAudioMessage(s, user, audio, env).state.saved == s.saved
  {
  }

  /** The token most recently saved for `user`, if any. */
  function LastSaved(log: seq<SaveRecord>, user: UserId): (t: Option<Token>)
    ensures t.Some? <==> exists i :: 0 <= i < |log| && log[i].user == user
  {
    if log == [] then None
    else if log[|log| - 1].user == user then Some(log[|log| - 1].token)
    else LastSaved(log[..|log| - 1], user)
  }

  lemma LastSavedAppend(log: seq<SaveRecord>, r: SaveRecord, user: UserId)
    ensures LastSaved(log + [r], user) == if r.user == user then Some(r.token) else LastSaved(log, user)
  {
    assert (log + [r])[..|log|] == log;
  }

  /** Every record a text message adds to the credential store holds a token that passed that message's liveness check. */
  lemma EventSavesOnlyCheckedTokens(s: RouterState, ev: Event, env: Env)
    ensures var t := OnEvent(s, ev, env).state;
      forall i :: |s.saved| <= i < |t.saved| ==> env.tokenValid(t.saved[i].token)
  {
    match ev {
      case TextMessage(u, m) =>
        var command := Classify(Strip(m));
        BindingsChangeOnlyOnRegister(s, u, command, env);
        if command.Register? && env.tokenValid(command.token) && env.save(u, command.token).None? {
          assert OnEvent(s, ev, env).state.saved == s.saved + [SaveRecord(u, command.token)];
        }
      case AudioMessage(u, a) => AudioKeepsBindings(s, u, a, env);
    }
  }

  /**
   * The binding registry and the credential store agree: a user's binding is
   * the token last saved for them. Bindings restored at start-up are not
   * checked again, so users without a saved record are unconstrained.
   */
  ghost predicate StoresAgree(s: RouterState) {
    forall u :: LastSaved(s.saved, u).Some? ==> u in s.bindings && s.bindings[u] == LastSaved(s.saved, u).value
  }

  /** Every write of the credential store succeeds. */
  ghost predicate SavesSucceed(env: Env) {
    forall u, k :: env.save(u, k).None?
  }

  /**
   * A failed write breaks the agreement: a user whose last saved token is not
   * the new one is bound to the new one while the store still holds the old.
   */
  lemma SaveFailureBreaksAgreement(s: RouterState, user: UserId, env: Env, key: Token, m: string)
    requires StoresAgree(s)
    requires env.tokenValid(key) && env.save(user, key) == Some(m)
    requires LastSaved(s.saved, user).Some? && LastSaved(s.saved, user).value != key
    ensures !StoresAgree(HandleCommand(s, user, Register(key), env).state)
  {
    RegisterSaveFailed(s, user, env, key, m);
    var t := HandleCommand(s, user, Register(key), env).state;
    assert t.saved == s.saved && t.bindings[user] == key;
  }

  lemma EventKeepsStoresAgree(s: RouterState, ev: Event, env: Env)
    requires StoresAgree(s) && SavesSucceed(env)
    ensures StoresAgree(OnEvent(s, ev, env).state)
  {
    match ev {
      case TextMessage(u, t) =>
        var command := Classify(Strip(t));
        BindingsChangeOnlyOnRegister(s, u, command, env);
        if command.Register? && env.tokenValid(command.token) {
          assert env.save(u, command.token).None?;
          var r := SaveRecord(u, command.token);
          forall v | LastSaved(s.saved + [r], v).Some?
            ensures v in s.bindings[u := command.token] && s.bindings[u := command.token][v] == LastSaved(s.saved + [r], v).value
          {
            LastSavedAppend(s.saved, r, v);
          }
        }
      case AudioMessage(u, a) =>
        AudioKeepsBindings(s, u, a, env);
    }
  }

  /**
   * Any sequence of events, each meeting the world as it then is, keeps the
   * registry and the store in agreement as long as every write of the store
   * succeeds.
   */
  lemma {:induction false} RunKeepsStoresAgree(s: RouterState, deliveries: seq<Delivery>)
    requires StoresAgree(s)
    requires forall i :: 0 <= i < |deliveries| ==> SavesSucceed(deliveries[i].env)
    ensures StoresAgree(Run(s, deliveries).0)
    decreases |deliveries|
  {
    if deliveries != [] {
      var d := deliveries[0];
      EventKeepsStoresAgree(s, d.event, d.env);
      RunKeepsStoresAgree(OnEvent(s, d.event, d.env).state, deliveries[1..]);
    }
  }

  /** One event keeps every registered user registered, and the store only grows. */
  lemma EventKeepsRegistrations(s: RouterState, ev: Event, env: Env)
    ensures s.bindings.Keys <= OnEvent(s, ev, env).state.bindings.Keys
    ensures s.saved <= OnEvent(s, ev, env).state.saved
  {
    match ev {
      case TextMessage(u, m) =>
        var command := Classify(Strip(m));
        var t := HandleCommand(s, u, command, env).state;
        CommandOnlyChangesSender(s, u, command, env);
        BindingsChangeOnlyOnRegister(s, u, command, env);
        if command.Register? && env.tokenValid(command.token) {
          assert t.bindings == s.bindings[u := command.token];
        }
      case AudioMessage(u, a) => AudioKeepsBindings(s, u, a, env);
    }
  }

  /** Once registered, a user stays registered, and the store only grows. */
  lemma {:induction false} RunKeepsRegistrations(s: RouterState, deliveries: seq<Delivery>)
    ensures s.bindings.Keys <= Run(s, deliveries).0.bindings.Keys
    ensures s.saved <= Run(s, deliveries).0.saved
    decreases |deliveries|
  {
    if deliveries != [] {
      var d := deliveries[0];
      EventKeepsRegistrations(s, d.event, d.env);
      RunKeepsRegistrations(OnEvent(s, d.event, d.env).state, deliveries[1..]);
    }
  }
}
