/**
 * The relay server's shared state, read by `getState()` and written by
 * `setState()` in the WhatsApp module and the API routes: the conversation
 * store, the set of paused chats, the AI configuration, the connection status
 * with its pending QR code, and whether a socket exists. Socket.IO broadcasts
 * are kept as a log of events, and each config.json write as the snapshot it
 * would write.
 */
module ServerState {
  import opened Js
  import opened Messages
  import opened ConversationStore
  import opened Config

  /** The `status` strings 'disconnected', 'waiting_for_scan' and 'connected'. */
  datatype ConnStatus = Disconnected | WaitingForScan | Connected

  /** The string a status is stored and broadcast as. */
  function StatusText(status: ConnStatus): (text: string)
    ensures text != []
  {
    match status
    case Disconnected => "disconnected"
    case WaitingForScan => "waiting_for_scan"
    case Connected => "connected"
  }

  /**
   * The text-bearing parts of a Baileys message: `conversation`,
   * `extendedTextMessage.text`, and the same two inside `ephemeralMessage.message`
   * ("" when absent).
   */
  datatype Content = Content(conversation: string, extendedText: string, ephemeralExtendedText: string, ephemeralConversation: string)

  datatype WaKey = WaKey(remoteJid: string, fromMe: bool, id: string)

  /** An upserted message: its key and its `message` field (None when absent). */
  datatype WaMessage = WaMessage(key: WaKey, message: Option<Content>)

  /** One `io.emit(...)` broadcast. */
  datatype Event =
    | QrEvent(qr: Option<string>)
    | StatusEvent(status: ConnStatus)
    | MsgLogIn(msg: WaMessage)
    | MsgLogOut(remoteJid: string, text: string, manual: bool)
    /** The outgoing log of a completion whose content is null (the legacy server logs it as is). */
    | MsgLogOutNull(remoteJid: string)
    | LogEvent(text: string)
    | AiErrorEvent(jid: string, error: string)
    | ConversationUpdate(jid: string, conversation: Conversation)
    | ContactUpdated(jid: string, name: string)
    | ContactDeleted(jid: string)
    | PausedUpdate(remoteJid: string, isPaused: bool)

  class Server {
    var conversations: map<string, Conversation>
    var pausedChats: set<string>
    var currentConfig: AiConfig
    var status: ConnStatus
    var qrCodeData: Option<string>
    var sockPresent: bool
    /** Every broadcast so far, oldest first. */
    var emitted: seq<Event>
    /** Every config.json write so far, oldest first. */
    var saved: seq<Snapshot>

    ghost predicate Valid()
      reads this
    {
      StoreInvariant(conversations)
    }

    /** A server that has loaded its store, pause set and configuration and has no socket yet. */
    constructor (convs: map<string, Conversation>, paused: set<string>, config: AiConfig)
      requires StoreInvariant(convs)
      ensures Valid()
      ensures conversations == convs && pausedChats == paused && currentConfig == config
      ensures status == Disconnected && qrCodeData == None && !sockPresent
      ensures emitted == [] && saved == []
    {
      conversations := convs;
      pausedChats := paused;
      currentConfig := config;
      status := Disconnected;
      qrCodeData := None;
      sockPresent := false;
      emitted := [];
      saved := [];
    }
  }
}
