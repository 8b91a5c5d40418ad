/** The room list view: which rooms it lists, its title, and what each row
    shows (badge, preview line, name, avatar initial, presence dot). The row
    rules describe a rendered row; rows are rendered only once loading is over. */
module ChatRail {
  import opened Js
  import opened ChatTypes
  import ChatStore
  import Server

  const InboxTitle: string := "Inbox"
  const TypingPreview: string := "Typing..."
  const NoMessagesPreview: string := "No messages yet"
  const GroupChatName: string := "Group Chat"

  function IsUser(id: Option<string>): Person -> bool {
    (u: Person) => Some(u.id) == id
  }

  /** The header: the name of the first user whose id is the selected one, else "Inbox". */
  function HeaderTitle(users: seq<Person>, selectedUserId: Option<string>): (t: string)
    ensures (forall i :: 0 <= i < |users| ==> Some(users[i].id) != selectedUserId) ==> t == InboxTitle
    ensures forall i :: 0 <= i < |users| && Some(users[i].id) == selectedUserId &&
                        (forall j :: 0 <= j < i ==> Some(users[j].id) != selectedUserId) ==>
              t == users[i].name
  {
    match Find(users, IsUser(selectedUserId))
    case Some(u) => u.name
    case None => InboxTitle
  }

  /** The listed rooms: the same selection the store opens a room from, so
      every room when nobody is selected, otherwise exactly the selected
      agent's rooms. */
  function DisplayedRooms(rooms: seq<Room>, selectedUserId: Option<string>): (r: seq<Room>)
    ensures !Truthy(selectedUserId) ==> r == rooms
    ensures Truthy(selectedUserId) ==> forall i :: 0 <= i < |r| ==> r[i] in rooms && r[i].agentId == selectedUserId
    ensures Truthy(selectedUserId) ==> forall i :: 0 <= i < |rooms| && rooms[i].agentId == selectedUserId ==> rooms[i] in r
  {
    ChatStore.AgentRooms(rooms, selectedUserId)
  }

  /** "No chats found.": only once loading is over, and with nothing to list. */
  predicate ShowsEmptyNotice(rooms: seq<Room>, selectedUserId: Option<string>, isLoading: bool) {
    !isLoading && DisplayedRooms(rooms, selectedUserId) == []
  }

  /** While loading, placeholders show instead of the notice; afterwards it
      appears exactly when there is no room at all (nobody selected) or no room
      of the selected agent. */
  lemma EmptyNoticeIff(rooms: seq<Room>, selectedUserId: Option<string>, isLoading: bool)
    ensures isLoading ==> !ShowsEmptyNotice(rooms, selectedUserId, isLoading)
    ensures !isLoading && !Truthy(selectedUserId) ==> (ShowsEmptyNotice(rooms, selectedUserId, isLoading) <==> rooms == [])
    ensures !isLoading && Truthy(selectedUserId) ==>
      (ShowsEmptyNotice(rooms, selectedUserId, isLoading) <==>
       forall i :: 0 <= i < |rooms| ==> rooms[i].agentId != selectedUserId)
  {
    if Truthy(selectedUserId) {
      ChatStore.FirstAgentRoom(rooms, selectedUserId);
    }
  }

  /** The unread badge: something unread in a room that is not the viewed one. */
  predicate ShowsBadge(room: Room, activeRoomId: Option<string>) {
    room.unreadCount > 0 && Some(room.id) != activeRoomId
  }

  /** After a message is received for a room with a non-negative count, its row
      is badged exactly when it is not being viewed and it either had unread
      messages already or the message came from someone else. */
  lemma BadgeAfterReceive(rooms: seq<Room>, m: Message, activeRoomId: Option<string>, i: nat)
    requires i < |rooms| && rooms[i].id == m.roomId && rooms[i].unreadCount >= 0
    ensures ShowsBadge(ChatStore.ApplyReceive(rooms, m, activeRoomId)[i], activeRoomId) <==>
      Some(m.roomId) != activeRoomId && (rooms[i].unreadCount > 0 || m.senderId != CurrentUser)
  {
  }

  /** The second line of a row: "Typing..." while someone (with a non-empty
      label) is typing there, else the summary text, else "No messages yet". */
  function PreviewLine(room: Room, typingUsers: map<string, string>): (p: string)
    ensures p != ""
    ensures room.id in typingUsers && typingUsers[room.id] != "" ==> p == TypingPreview
    ensures !(room.id in typingUsers && typingUsers[room.id] != "") ==>
      p == if room.lastMessageText != "" then room.lastMessageText else NoMessagesPreview
  {
    if room.id in typingUsers && typingUsers[room.id] != "" then TypingPreview
    else if room.lastMessageText != "" then room.lastMessageText
    else NoMessagesPreview
  }

  /** A typing start for a room turns its preview into "Typing..."; a stop
      brings the summary (or "No messages yet") back. */
  lemma PreviewFollowsTyping(room: Room, typingUsers: map<string, string>, data: TypingSignal)
    requires data.roomId == room.id
    ensures data.isTyping && data.user != "" ==>
      PreviewLine(room, ChatStore.ApplyTyping(typingUsers, data)) == TypingPreview
    ensures !data.isTyping ==>
      PreviewLine(room, ChatStore.ApplyTyping(typingUsers, data)) ==
        if room.lastMessageText != "" then room.lastMessageText else NoMessagesPreview
  {
  }

  /** With nobody typing, a received message shows as its preview, or as
      "No messages yet" when its text is empty. */
  lemma PreviewAfterReceive(rooms: seq<Room>, m: Message, activeRoomId: Option<string>, typingUsers: map<string, string>, i: nat)
    requires i < |rooms| && rooms[i].id == m.roomId && rooms[i].id !in typingUsers
    ensures PreviewLine(ChatStore.ApplyReceive(rooms, m, activeRoomId)[i], typingUsers) ==
      if m.text == "" then NoMessagesPreview else ChatStore.Preview(m.text)
  {
    assert m.text == "" <==> ChatStore.Preview(m.text) == "";
  }

  /** The name on a row: the joined client's, or "Group Chat" without one. */
  function DisplayName(room: Room): (n: string)
    ensures room.otherUser.Some? ==> n == room.otherUser.value.name
    ensures room.otherUser.None? ==> n == GroupChatName
  {
    match room.otherUser
    case Some(u) => u.name
    case None => GroupChatName
  }

  /** `name.charAt(0).toUpperCase()`: empty for an empty name. */
  function Initial(name: string): (s: string)
    ensures |s| <= 1
    ensures s == "" <==> name == ""
    ensures name != "" ==> s[0] == ToUpper(name[0])
  {
    if name == "" then "" else [ToUpper(name[0])]
  }

  /** The green presence dot: shown only for a joined client who is online
      (the "Group Chat" stand-in is offline). */
  predicate ShowsPresence(room: Room) {
    match room.otherUser
    case Some(u) => u.status == Online
    case None => false
  }

  /** A row for a room as the rooms query serves it: with no client of that id
      it reads "Group Chat" under a "G" and without a presence dot; otherwise it
      shows the first client with that id, by name, with that name's initial,
      and with the dot exactly when that client is online. */
  lemma ServedRoomRow(rooms: seq<RoomRecord>, clients: seq<Person>, i: nat)
    requires i < |rooms|
    ensures var row := Server.RichRooms(rooms, clients)[i];
      (forall j :: 0 <= j < |clients| ==> clients[j].id != rooms[i].clientId) ==>
        DisplayName(row) == GroupChatName && Initial(DisplayName(row)) == "G" && !ShowsPresence(row)
    ensures var row := Server.RichRooms(rooms, clients)[i];
      forall j :: 0 <= j < |clients| && clients[j].id == rooms[i].clientId &&
                  (forall k :: 0 <= k < j ==> clients[k].id != rooms[i].clientId) ==>
        && DisplayName(row) == clients[j].name
        && Initial(DisplayName(row)) == Initial(clients[j].name)
        && (ShowsPresence(row) <==> clients[j].status == Online)
  {
    assert Server.RichRooms(rooms, clients)[i] == Server.Enrich(rooms[i], clients);
  }
}
