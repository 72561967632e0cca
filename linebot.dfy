/**
 * The message router of the LINE bot: for each inbound text or voice message
 * of a user it picks a command, checks that the user has registered a model
 * token where one is needed, updates the binding registry, the credential
 * store and the conversation memory, and produces exactly one reply.
 *
 * Everything the router asks of the outside world (the token check, the
 * credential store's write, the chat,
 * image and transcription calls, URL and video detection, page and transcript
 * fetching, the summarisers) is a pure function in Env, so that a handler's
 * outcome is a function of the stores and the message.
 */
module LineBot {
  import opened Wrappers
  import opened PyText
  import opened Commands
  import opened Replies
  import opened Sessions

  type Token = string
  type Audio = seq<bv8>

  /** One successful call of `storage.save({user: token})`. */
  datatype SaveRecord = SaveRecord(user: UserId, token: Token)

  /** The one message sent back for an event. */
  datatype Reply = TextReply(message: Message) | ImageReply(url: string)

  /** The collaborators, each as the answer it gives. */
  datatype Env = Env(
    // liveness check of a candidate token against the provider
    tokenValid: Token -> bool,
    // the credential store's write of a user's token; the error message when it fails
    save: (UserId, Token) -> Option<string>,
    // chat completion over the user's session; yields the reply's role and content
    chat: (Token, Session) -> Result<Entry>,
    // image generation; yields the image URL
    image: (Token, string) -> Result<string>,
    // the URL found in a message, if any
    urlOf: string -> Option<string>,
    // the video id found in a message, if any
    videoIdOf: string -> Option<string>,
    // the transcript of a video, in chunks
    transcriptChunks: string -> Result<seq<string>>,
    // summary of transcript chunks
    summarizeVideo: (Token, seq<string>) -> Result<Entry>,
    // the text of a web page, in chunks; no chunk when nothing could be read
    pageChunks: string -> seq<string>,
    // summary of page chunks
    summarizePage: (Token, seq<string>) -> Result<Entry>,
    // transcription of a voice message
    transcribe: (Token, Audio) -> Result<string>)

  /** The stores a handler reads and writes. */
  datatype RouterState = RouterState(
    bindings: map<UserId, Token>,   // the model bound to each registered user
    saved: seq<SaveRecord>,         // the credential store's successful writes, oldest first
    memory: map<UserId, Session>)   // the conversation memory

  /** A handler body either produced a reply or raised, in some state. */
  datatype Step = Replied(state: RouterState, reply: Reply) | Threw(state: RouterState, error: Raised)

  datatype Outcome = Outcome(state: RouterState, reply: Reply)

  /** How a handler body ended: with a reply, or with an exception. */
  datatype Exit = Normal(reply: Reply) | Exception(error: Raised)

  function ExitOf(step: Step): Exit {
    match step
    case Replied(_, r) => Normal(r)
    case Threw(_, e) => Exception(e)
  }

  /**
   * The model's answer to content: a summary of the video's transcript when
   * the message holds a URL and a video id, else a summary of the page, which
   * fails when the page yields no chunk; a chat completion when there is no URL.
   */
  function Answer(text: string, token: Token, session: Session, env: Env): Result<Entry> {
    match env.urlOf(text)
    case Some(url) =>
      (match env.videoIdOf(text)
       case Some(video) =>
         (match env.transcriptChunks(video)
          case Err(m) => Err(m)
          case Ok(chunks) => env.summarizeVideo(token, chunks))
       case None =>
         var chunks := env.pageChunks(url);
         if |chunks| == 0 then Err(EmptyPageError) else env.summarizePage(token, chunks))
    case None => env.chat(token, session)
  }

  /** One branch of the text handler's `if` chain, for the command the text was classified as. */
  function DispatchCommand(s: RouterState, user: UserId, command: Command, env: Env): Step {
    match command
    case Register(key) =>
      if !env.tokenValid(key) then Threw(s, ValueError)
      else
        var bound := s.(bindings := s.bindings[user := key]);
        (match env.save(user, key)
         case Some(m) => Threw(bound, Failure(m))
         case None => Replied(bound.(saved := s.saved + [SaveRecord(user, key)]), TextReply(Registered)))
    case Help => Replied(s, TextReply(HelpMenu))
    case Cosplay(persona) =>
      Replied(s.(memory := ChangeSystemMessage(s.memory, user, persona)), TextReply(PersonaSet(persona)))
    case Clear => Replied(s.(memory := RemoveSession(s.memory, user)), TextReply(Cleared))
    case Image(prompt) =>
      var asked := s.(memory := AppendEntry(s.memory, user, Entry(UserRole, prompt)));
      if user !in s.bindings then Threw(asked, KeyError)
      else
        (match env.image(s.bindings[user], prompt)
         case Err(m) => Threw(asked, Failure(m))
         case Ok(url) =>
           Replied(asked.(memory := AppendEntry(asked.memory, user, Entry(AssistantRole, url))), ImageReply(url)))
    case Content(text) =>
      if user !in s.bindings then Threw(s, KeyError)
      else
        var asked := s.(memory := AppendEntry(s.memory, user, Entry(UserRole, text)));
        (match Answer(text, s.bindings[user], SessionOf(asked.memory, user), env)
         case Err(m) => Threw(asked, Failure(m))
         case Ok(e) => Replied(asked.(memory := AppendEntry(asked.memory, user, e)), TextReply(Verbatim(e.content))))
  }

  /** The body of the audio handler, once the voice message has been downloaded. */
  function DispatchAudio(s: RouterState, user: UserId, audio: Audio, env: Env): Step {
    if user !in s.bindings then Threw(s, ValueError)
    else
      var token := s.bindings[user];
      match env.transcribe(token, audio)
      case Err(m) => Threw(s, Failure(m))
      case Ok(words) =>
        var asked := s.(memory := AppendEntry(s.memory, user, Entry(UserRole, words)));
        (match env.chat(token, SessionOf(asked.memory, user))
         case Err(m) => Threw(asked, Failure(m))
         case Ok(e) => Replied(asked.(memory := AppendEntry(asked.memory, user, e)), TextReply(Verbatim(e.content))))
  }

  /** The handlers' `except` clauses: a generic failure also removes the user's memory. */
  function Catch(step: Step, user: UserId, channel: Channel): Outcome {
    match step
    case Replied(st, r) => Outcome(st, r)
    case Threw(st, e) =>
      var after := if e.Failure? then st.(memory := RemoveSession(st.memory, user)) else st;
      Outcome(after, TextReply(ErrorReply(channel, e)))
  }

  /** The outcome of a text message whose stripped text was classified as `command`. */
  function HandleCommand(s: RouterState, user: UserId, command: Command, env: Env): Outcome {
    Catch(DispatchCommand(s, user, command, env), user, TextChannel)
  }

  /** `handle_text_message`: the outcome of a text message as delivered. */
  function OnTextMessage(s: RouterState, user: UserId, message: string, env: Env): Outcome {
    HandleCommand(s, user, Classify(Strip(message)), env)
  }

  /** `handle_audio_message`: the outcome of a voice message. */
  function OnAudioMessage(s: RouterState, user: UserId, audio: Audio, env: Env): Outcome {
    Catch(DispatchAudio(s, user, audio, env), user, AudioChannel)
  }

  datatype Event = TextMessage(user: UserId, text: string) | AudioMessage(user: UserId, audio: Audio)

  function OnEvent(s: RouterState, ev: Event, env: Env): Outcome {
    match ev
    case TextMessage(u, t) => OnTextMessage(s, u, t, env)
    case AudioMessage(u, a) => OnAudioMessage(s, u, a, env)
  }

  /**
   * An event together with the answers the outside world gives while it is
   * handled: a token may pass the liveness check for one event and fail it
   * for a later one.
   */
  datatype Delivery = Delivery(event: Event, env: Env)

  /** Events handled one after another: the final stores and the replies, one per event, in order. */
  function Run(s: RouterState, deliveries: seq<Delivery>): (r: (RouterState, seq<Reply>))
    decreases |deliveries|
    ensures |r.1| == |deliveries|
    ensures deliveries != [] ==> r.1[0] == OnEvent(s, deliveries[0].event, deliveries[0].env).reply
  {
    if deliveries == [] then (s, [])
    else
      var o := OnEvent(s, deliveries[0].event, deliveries[0].env);
      var rest := Run(o.state, deliveries[1..]);
      (rest.0, [o.reply] + rest.1)
  }

  /** The process-wide stores, updated in place by the two handlers. */
  class Router {
    var bindings: map<UserId, Token>
    var saved: seq<SaveRecord>
    var memory: map<UserId, Session>

    function Current(): RouterState
      reads this
    {
      RouterState(bindings, saved, memory)
    }

    /**
     * Start-up: the bindings are rebuilt from the stored tokens without
     * checking them again; memory starts empty.
     */
    constructor (restored: map<UserId, Token>)
      ensures Current() == RouterState(restored, [], map[])
    {
      bindings := restored;
      saved := [];
      memory := map[];
    }

    /** `handle_text_message`: handles one text message and returns the one reply. */
    method HandleTextMessage(user: UserId, message: string, env: Env) returns (reply: Reply)
      modifies this
      ensures Current() == OnTextMessage(old(Current()), user, message, env).state
      ensures reply == OnTextMessage(old(Current()), user, message, env).reply
    {
      var exit := Execute(user, Classify(Strip(message)), env);
      match exit {
        case Normal(r) =>
          reply := r;
        case Exception(e) =>
          if e.Failure? {
            memory := RemoveSession(memory, user);
          }
          reply := TextReply(ErrorReply(TextChannel, e));
      }
    }

    /** The `try` body of the text handler for a classified message. */
    method Execute(user: UserId, command: Command, env: Env) returns (exit: Exit)
      modifies this
      ensures Current() == DispatchCommand(old(Current()), user, command, env).state
      ensures exit == ExitOf(DispatchCommand(old(Current()), user, command, env))
    {
      match command {
        case Register(key) =>
          if !env.tokenValid(key) {
            return Exception(ValueError);
          }
          bindings := bindings[user := key];
          var failure := env.save(user, key);
          if failure.Some? {
            return Exception(Failure(failure.value));
          }
          saved := saved + [SaveRecord(user, key)];
          exit := Normal(TextReply(Registered));
        case Help =>
          exit := Normal(TextReply(HelpMenu));
        case Cosplay(persona) =>
          memory := ChangeSystemMessage(memory, user, persona);
          exit := Normal(TextReply(PersonaSet(persona)));
        case Clear =>
          memory := RemoveSession(memory, user);
          exit := Normal(TextReply(Cleared));
        case Image(prompt) =>
          memory := AppendEntry(memory, user, Entry(UserRole, prompt));
          if user !in bindings {
            return Exception(KeyError);
          }
          var generated := env.image(bindings[user], prompt);
          if generated.Err? {
            return Exception(Failure(generated.message));
          }
          exit := Normal(ImageReply(generated.value));
          memory := AppendEntry(memory, user, Entry(AssistantRole, generated.value));
        case Content(text) =>
          if user !in bindings {
            return Exception(KeyError);
          }
          var model := bindings[user];
          memory := AppendEntry(memory, user, Entry(UserRole, text));
          var answer := Answer(text, model, SessionOf(memory, user), env);
          if answer.Err? {
            return Exception(Failure(answer.message));
          }
          exit := Normal(TextReply(Verbatim(answer.value.content)));
          memory := AppendEntry(memory, user, answer.value);
      }
    }

    method HandleAudioMessage(user: UserId, audio: Audio, env: Env) returns (reply: Reply)
      modifies this
      ensures Current() == OnAudioMessage(old(Current()), user, audio, env).state
      ensures reply == OnAudioMessage(old(Current()), user, audio, env).reply
    {
      var raised: Option<Raised> := None;
      if user !in bindings {
        raised := Some(ValueError);
      } else {
        var transcript := env.transcribe(bindings[user], audio);
        if transcript.Err? {
          raised := Some(Failure(transcript.message));
        } else {
          memory := AppendEntry(memory, user, Entry(UserRole, transcript.value));
          var answer := env.chat(bindings[user], SessionOf(memory, user));
          if answer.Err? {
            raised := Some(Failure(answer.message));
          } else {
            memory := AppendEntry(memory, user, answer.value);
            reply := TextReply(Verbatim(answer.value.content));
          }
        }
      }
      if raised.Some? {
        if raised.value.Failure? {
          memory := RemoveSession(memory, user);
        }
        reply := TextReply(ErrorReply(AudioChannel, raised.value));
      }
    }
  }
}
