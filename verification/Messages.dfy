/** Message values as the storage and push services see them, and the option
    table of a message: an option that is absent counts as set. */
module Messages {

  datatype Option<+T> = None | Some(value: T)

  // Session types of a message.
  const SINGLE_CHAT := 1
  const GROUP_CHAT := 2
  const SUPER_GROUP_CHAT := 3
  const NOTIFICATION_CHAT := 4

  // Keys of the option table.
  const IS_HISTORY := "history"
  const IS_PERSISTENT := "persistent"
  const IS_OFFLINE_PUSH := "offlinePush"
  const IS_UNREAD_COUNT := "unreadCount"
  const IS_CONVERSATION_UPDATE := "conversationUpdate"
  const IS_SENDER_SYNC := "senderSync"
  const IS_NOT_PRIVATE := "notPrivate"
  const IS_SENDER_CONVERSATION_UPDATE := "senderConversationUpdate"
  const IS_REACTION_FROM_CACHE := "reactionFromCache"
  const IS_NOT_NOTIFICATION := "isNotNotification"
  const IS_SEND_MSG := "isSendMsg"

  // Content types that ask for a message to be modified.
  const REACTION_MESSAGE_MODIFIER := 121
  const REACTION_MESSAGE_DELETER := 122

  type Options = map<string, bool>

  /** The part of a message that decides where it is filed; `options` is None
      for a message whose option table is nil. */
  datatype Msg = Msg(sendID: string, recvID: string, groupID: string,
                     sessionType: int, contentType: int, options: Option<Options>)

  predicate Is(options: Options, key: string) {
    key in options ==> options[key]
  }

  /** Looking a key up in a nil table finds nothing, as in an empty one. */
  function Table(options: Option<Options>): Options {
    match options
    case None => map[]
    case Some(t) => t
  }

  predicate Has(m: Msg, key: string) {
    Is(Table(m.options), key)
  }

  predicate IsNotification(m: Msg) {
    !Has(m, IS_NOT_NOTIFICATION)
  }

  predicate KnownSession(m: Msg) {
    SINGLE_CHAT <= m.sessionType <= NOTIFICATION_CHAT
  }
}
