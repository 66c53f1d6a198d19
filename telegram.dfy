/** The few Telegram Bot API values the bot's handlers look at: chat-member
    statuses, chat types and the chat an update belongs to. */
module Telegram {

  datatype Option<+T> = None | Some(value: T)

  /** The `status` field of a chat member (ChatMember.MEMBER, OWNER, ...). */
  datatype Status = Member | Owner | Administrator | Restricted | Left | Banned

  /** The `type` field of a chat (Chat.PRIVATE, GROUP, ...). */
  datatype ChatType = Private | Group | Supergroup | Channel | Sender

  /** The effective chat of an update: its identifier and its type. */
  datatype Chat = Chat(id: int, kind: ChatType)
}
