/**
 * The fixed reply texts and the mapping from a raised exception to the one
 * reply the user gets, for the text handler and for the audio handler.
 */
module Replies {
  import opened PyText

  const RegisteredReply := "Token 有效，註冊成功"
  const PersonaSetSuffix := "輸入成功"
  const ClearedReply := "歷史訊息清除成功"
  const InvalidTokenReply := "Token 無效，請重新註冊，格式為 /register sk-xxxxx"
  const RegisterFirstReply := "請先註冊 Token，格式為 /register sk-xxxxx"
  const WrongKeyReply := "OpenAI API Token 有誤，請重新註冊。"
  const OverloadedReply := "已超過負荷，請稍後再試"
  const AudioRegisterFirstReply := "請先註冊你的 API Token，格式為 /註冊 [API TOKEN]"
  const AudioKeyErrorReply := "請先註冊 Token，格式為 /註冊 sk-xxxxx"

  /** The message raised when a web page yields no text to summarise. */
  const EmptyPageError := "無法撈取此網站文字"

  /** Upstream messages recognised by their beginning. */
  const WrongKeyPrefix := "Incorrect API key provided"
  const OverloadedPrefix := "That model is currently overloaded" + " with other requests."

  const HelpText :=
    "指令：\n/register + API Token\n👉 API Token 請先到 https://platform.openai.com/ 註冊登入後取得\n\n"
    + "/cosplay + Prompt\n👉 Prompt 可以命令機器人扮演某個角色，例如：請你扮演擅長做總結的人\n\n"
    + "/clear\n👉 當前每一次都會紀錄最後兩筆歷史紀錄，這個指令能夠清除歷史訊息\n\n"
    + "/image + Prompt\n👉 以文字生成圖像\n輸入語音\n👉 將語音轉換成文字，再調用 ChatGPT 以文字回覆\n\n"
    + "其他文字輸入\n👉 調用 ChatGPT 以文字回覆"

  /** The text replies the handlers send, by kind. */
  datatype Message =
    | Registered                  // a live token was bound
    | HelpMenu                    // the command reference
    | PersonaSet(persona: string) // the persona was set
    | Cleared                     // the memory was removed
    | InvalidToken                // text handler: the token failed the check
    | RegisterFirst               // text handler: no binding
    | WrongKey                    // the provider rejected the bound token
    | Overloaded                  // text handler: the provider is overloaded
    | AudioRegisterFirst          // audio handler: no binding
    | AudioKeyError               // audio handler: lookup failed after the check
    | Verbatim(text: string)      // a text shown as it is: an answer, or an unrecognised failure

  /** The exact text sent for each kind of reply. */
  function Render(m: Message): string {
    match m
    case Registered => RegisteredReply
    case HelpMenu => HelpText
    case PersonaSet(p) => p + PersonaSetSuffix
    case Cleared => ClearedReply
    case InvalidToken => InvalidTokenReply
    case RegisterFirst => RegisterFirstReply
    case WrongKey => WrongKeyReply
    case Overloaded => OverloadedReply
    case AudioRegisterFirst => AudioRegisterFirstReply
    case AudioKeyError => AudioKeyErrorReply
    case Verbatim(t) => t
  }

  /** The three kinds of exception the handlers tell apart. */
  datatype Raised =
    | ValueError                // an invalid token, or (audio) no binding
    | KeyError                  // no binding for the user
    | Failure(message: string)  // any other exception, with its text

  datatype Channel = TextChannel | AudioChannel

  /** The reply for a generic failure: two known upstream messages are translated, any other passed on. */
  function FailureReply(channel: Channel, message: string): Message {
    if StartsWith(message, WrongKeyPrefix) then WrongKey
    else if channel == TextChannel && StartsWith(message, OverloadedPrefix) then Overloaded
    else Verbatim(message)
  }

  /** The reply for a raised exception. */
  function ErrorReply(channel: Channel, e: Raised): Message {
    match e
    case ValueError => if channel == TextChannel then InvalidToken else AudioRegisterFirst
    case KeyError => if channel == TextChannel then RegisterFirst else AudioKeyError
    case Failure(m) => FailureReply(channel, m)
  }

  /** A message whose first character differs from a prefix's does not start with it. */
  lemma FirstCharRulesOut(message: string, prefix: string)
    requires prefix != [] && message != [] && message[0] != prefix[0]
    ensures !StartsWith(message, prefix)
  {
    if |prefix| <= |message| {
      assert message[..|prefix|][0] == message[0];
    }
  }

  /** No message starts with both recognised prefixes, so the order of the two tests does not matter. */
  lemma RecognisedPrefixesExclusive(message: string)
    ensures !(StartsWith(message, WrongKeyPrefix) && StartsWith(message, OverloadedPrefix))
  {
    assert WrongKeyPrefix[0] == 'I' && OverloadedPrefix[0] == 'T';
    if StartsWith(message, WrongKeyPrefix) {
      assert message[0] == message[..|WrongKeyPrefix|][0] == 'I';
      FirstCharRulesOut(message, OverloadedPrefix);
    }
  }

  /**
   * The two handlers map a generic failure the same way except for the
   * overload message, which only the text handler translates.
   */
  lemma ChannelsDifferOnlyOnOverload(message: string)
    ensures FailureReply(TextChannel, message) != FailureReply(AudioChannel, message)
        <==> !StartsWith(message, WrongKeyPrefix) && StartsWith(message, OverloadedPrefix)
    ensures Render(FailureReply(TextChannel, message)) != Render(FailureReply(AudioChannel, message))
        <==> !StartsWith(message, WrongKeyPrefix) && StartsWith(message, OverloadedPrefix)
  {
    if StartsWith(message, OverloadedPrefix) {
      assert OverloadedPrefix[0] == 'T' && OverloadedReply[0] == '已';
      assert message[0] == message[..|OverloadedPrefix|][0] == 'T';
    }
  }

  /**
   * A failure is shown to the user as it is exactly when its message is
   * not the wrong-key message and, for the text handler, not the overload
   * message either.
   */
  lemma UnrecognisedFailurePassedOn(channel: Channel, message: string)
    ensures ErrorReply(channel, Failure(message)) == Verbatim(message)
        <==> !StartsWith(message, WrongKeyPrefix) && (channel == AudioChannel || !StartsWith(message, OverloadedPrefix))
    ensures !StartsWith(message, WrongKeyPrefix) && (channel == AudioChannel || !StartsWith(message, OverloadedPrefix))
        ==> Render(ErrorReply(channel, Failure(message))) == message
  {
  }

  /** An upstream message such as "The server had an error" starts with `T` and is still passed on as it is. */
  lemma ServerErrorPassedOn(channel: Channel)
    ensures ErrorReply(channel, Failure("The server had an error")) == Verbatim("The server had an error")
  {
    var m := "The server had an error";
    assert m[0] == 'T' && WrongKeyPrefix[0] == 'I';
    FirstCharRulesOut(m, WrongKeyPrefix);
    assert |m| < |OverloadedPrefix|;
  }
}
