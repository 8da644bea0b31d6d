/** Values shared by the DifyTTS plugin model: inbound messages, the plugin
    configuration, files handed to Dify, and the notices the bot sends. */
module Types {

  datatype Option<T> = None | Some(value: T)

  /** `message.get("MsgId")`: `None` when the message carries no id. */
  type MsgId = Option<int>

  /** The fields of an inbound message dictionary that the plugin reads. */
  datatype Message = Message(
    msgId: MsgId,
    content: string,
    isGroup: bool,
    fromWxid: string,     // the chat (group or private) the message came from
    senderWxid: string)   // the user who sent it

  /** The plugin settings loaded in `__init__`; a missing optional key is "". */
  datatype Config = Config(
    enable: bool,
    apiKey: string,
    ttsApiKey: string,
    commands: seq<string>,
    otherPluginCmd: seq<string>,
    commandTip: string,
    price: int,
    adminIgnore: bool,
    whitelistIgnore: bool,
    admins: seq<string>)

  /** One entry of the `files` list of a Dify request. */
  datatype FileRef = FileRef(kind: string, uploadId: string)

  /** What a notice sent through the bot says. */
  datatype Body =
    | CommandTip(tip: string)
    | MissingDifyKey
    | MissingTtsKey
    | NotEnoughPoints(price: int)
    | Image(url: string)          // a `message_file` event, forwarded as an image
    | Audio(audio: string)        // a `tts_message` event, forwarded as voice
    | DifyError(message: string)  // an `error` event of the stream
    | BadRequest                  // HTTP 400
    | ServerError                 // HTTP 500
    | OtherStatus(status: int)    // any other status except 200 and 404
    | Reply(text: string)         // the accumulated answer, spoken through TTS

  /** A notice sent to the chat `room`. */
  datatype Notice = Notice(room: string, body: Body)

  /** How a handler call ended. */
  datatype Outcome =
    | Disabled        // the plugin is switched off
    | Duplicate       // the message id was already processed
    | Ignored         // a group text that is not a command
    | Tipped          // a bare command: the command tip was sent
    | OtherPluginCmd  // a command of another plugin
    | NoApiKey        // no Dify key configured
    | NoTtsKey        // no TTS key configured
    | GroupMedia      // a media message in a group
    | Refused         // not enough points
    | Forwarded       // the query went to Dify
    | Aborted         // the Dify stream raised an exception

  /** A solver hint: regrouping a concatenation, used where the verifier
      would otherwise search for the step itself. */
  lemma AppendAssoc<T>(a: seq<T>, b: seq<T>, c: seq<T>)
    ensures a + b + c == a + (b + c)
  {
  }
}
