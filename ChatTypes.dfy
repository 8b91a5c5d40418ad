/** The records that travel between the chat backend and the chat client. */
module ChatTypes {
  import opened Js

  /** A socket connection handle. */
  type SessionId = string

  /** The sender id the client stamps on every message it sends. */
  const CurrentUser: string := "currUser"

  /** The user label the client puts on every typing signal it sends. */
  const OwnTypingLabel: string := "You"

  /** One chat message. `id` and `time` are produced from the wall clock by the
      backend and are taken here as given values. */
  datatype Message = Message(id: int, roomId: string, senderId: string, text: string, time: string, read: bool)

  datatype Status = Online | Offline

  /** An agent or a client, as far as the chat views use one. */
  datatype Person = Person(id: string, name: string, status: Status)

  /** A room as the backend stores it: one agent talking to one client. */
  datatype RoomRecord = RoomRecord(
    id: string, kind: string, agentId: string, clientId: string,
    lastMessageText: string, lastMessageTime: string, unreadCount: int)

  /** A room as the client holds it: the backend record joined with its client
      (`otherUser`, absent when no client matches). */
  datatype Room = Room(
    id: string, kind: string, agentId: Option<string>, otherUser: Option<Person>,
    lastMessageText: string, lastMessageTime: string, unreadCount: int)

  /** The `send_message` payload a client emits. */
  datatype SendIntent = SendIntent(roomId: string, text: string, senderId: string)

  /** The payload of both the `typing` intent and the `user_typing` event. */
  datatype TypingSignal = TypingSignal(roomId: string, isTyping: bool, user: string)
}
