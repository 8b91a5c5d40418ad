/** The client chat store: one state record (`Store`) that the socket handlers
    and the user's actions update step by step, with the per-room summary,
    unread and typing rules as functions over its fields. */
module ChatStore {
  import opened Js
  import opened ChatTypes

  /** How many characters of a message the room summary keeps. */
  const PreviewLength: nat := 30

  const Ellipsis: string := "..."

  function Min(a: int, b: int): int {
    if a <= b then a else b
  }

  /** The summary text of a message: its first 30 characters, followed by an
      ellipsis exactly when something was cut off. */
  function Preview(text: string): (p: string)
    ensures |p| <= PreviewLength + |Ellipsis|
    ensures |text| <= PreviewLength ==> p == text
    ensures |text| > PreviewLength ==>
      |p| == PreviewLength + |Ellipsis| && p[..PreviewLength] == text[..PreviewLength] && p[PreviewLength..] == Ellipsis
  {
    text[..Min(PreviewLength, |text|)] + (if |text| > PreviewLength then Ellipsis else "")
  }

  /** A received message raises its room's unread count when someone else sent
      it and the room is not the one being viewed. */
  predicate CountsAsUnread(m: Message, activeRoomId: Option<string>) {
    m.senderId != CurrentUser && Some(m.roomId) != activeRoomId
  }

  /** A room's summary after `m` was received for it. */
  function Summarized(r: Room, m: Message, activeRoomId: Option<string>): Room {
    r.(lastMessageText := Preview(m.text),
       lastMessageTime := m.time,
       unreadCount := if CountsAsUnread(m, activeRoomId) then r.unreadCount + 1 else r.unreadCount)
  }

  /** The room list after `receive_message`: the rooms with the message's id are
      re-summarized, every other room is kept as it was, in the same order. */
  function ApplyReceive(rooms: seq<Room>, m: Message, activeRoomId: Option<string>): (r: seq<Room>)
    ensures |r| == |rooms|
    ensures forall i :: 0 <= i < |rooms| && rooms[i].id != m.roomId ==> r[i] == rooms[i]
    ensures forall i :: 0 <= i < |rooms| && rooms[i].id == m.roomId ==>
      && r[i].id == rooms[i].id && r[i].kind == rooms[i].kind
      && r[i].agentId == rooms[i].agentId && r[i].otherUser == rooms[i].otherUser
      && r[i].lastMessageText == Preview(m.text)
      && r[i].lastMessageTime == m.time
      && r[i].unreadCount == rooms[i].unreadCount + (if CountsAsUnread(m, activeRoomId) then 1 else 0)
  {
    seq(|rooms|, i requires 0 <= i < |rooms| =>
      if rooms[i].id == m.roomId then Summarized(rooms[i], m, activeRoomId) else rooms[i])
  }

  /** The room list after the messages of `ms` are received one after another. */
  function ReceiveAll(rooms: seq<Room>, ms: seq<Message>, activeRoomId: Option<string>): (r: seq<Room>)
    ensures |r| == |rooms|
    ensures forall i :: 0 <= i < |rooms| ==> r[i].id == rooms[i].id
    decreases |ms|
  {
    if ms == [] then rooms else ReceiveAll(ApplyReceive(rooms, ms[0], activeRoomId), ms[1..], activeRoomId)
  }

  function CountsFor(roomId: string, activeRoomId: Option<string>): Message -> bool {
    (m: Message) => m.roomId == roomId && CountsAsUnread(m, activeRoomId)
  }

  /** Over any run of received messages, a room's unread count rises by exactly
      the number of them that were for it, from someone else, while it was not
      being viewed. */
  lemma {:induction false} UnreadAfterReceives(rooms: seq<Room>, ms: seq<Message>, activeRoomId: Option<string>, i: nat)
    requires i < |rooms|
    ensures ReceiveAll(rooms, ms, activeRoomId)[i].unreadCount ==
            rooms[i].unreadCount + |Filter(ms, CountsFor(rooms[i].id, activeRoomId))|
    decreases |ms|
  {
    if ms != [] {
      var next := ApplyReceive(rooms, ms[0], activeRoomId);
      UnreadAfterReceives(next, ms[1..], activeRoomId, i);
    }
  }

  /** Receiving never lowers an unread count. */
  lemma ReceiveNeverLowersUnread(rooms: seq<Room>, m: Message, activeRoomId: Option<string>)
    ensures forall i :: 0 <= i < |rooms| ==>
      ApplyReceive(rooms, m, activeRoomId)[i].unreadCount >= rooms[i].unreadCount
  {
  }

  /** No room has a negative unread count. */
  predicate NonNegativeUnread(rooms: seq<Room>) {
    forall i :: 0 <= i < |rooms| ==> rooms[i].unreadCount >= 0
  }

  /** A receive keeps every unread count non-negative. */
  lemma ReceiveKeepsNonNegative(rooms: seq<Room>, m: Message, activeRoomId: Option<string>)
    requires NonNegativeUnread(rooms)
    ensures NonNegativeUnread(ApplyReceive(rooms, m, activeRoomId))
  {
    ReceiveNeverLowersUnread(rooms, m, activeRoomId);
  }

  /** The rooms being viewed have no unread messages. */
  predicate ActiveRoomRead(rooms: seq<Room>, activeRoomId: Option<string>) {
    forall i :: 0 <= i < |rooms| && Some(rooms[i].id) == activeRoomId ==> rooms[i].unreadCount == 0
  }

  /** A message received for the viewed room does not make it unread. */
  lemma ReceiveKeepsActiveRoomRead(rooms: seq<Room>, m: Message, activeRoomId: Option<string>)
    requires ActiveRoomRead(rooms, activeRoomId)
    ensures ActiveRoomRead(ApplyReceive(rooms, m, activeRoomId), activeRoomId)
  {
  }

  /** The room list after a room is opened: its unread count is zero, nothing else changes. */
  function ClearUnread(rooms: seq<Room>, roomId: string): (r: seq<Room>)
    ensures |r| == |rooms|
    ensures forall i :: 0 <= i < |rooms| ==>
      if rooms[i].id == roomId then r[i] == rooms[i].(unreadCount := 0) else r[i] == rooms[i]
  {
    seq(|rooms|, i requires 0 <= i < |rooms| => if rooms[i].id == roomId then rooms[i].(unreadCount := 0) else rooms[i])
  }

  /** Opening a room twice is the same as opening it once, and leaves it read. */
  lemma ClearUnreadIdempotent(rooms: seq<Room>, roomId: string)
    ensures ClearUnread(ClearUnread(rooms, roomId), roomId) == ClearUnread(rooms, roomId)
    ensures ActiveRoomRead(ClearUnread(rooms, roomId), Some(roomId))
  {
  }

  /** The typing map after a `user_typing` event. */
  function ApplyTyping(typing: map<string, string>, data: TypingSignal): (r: map<string, string>)
    ensures data.isTyping ==> data.roomId in r && r[data.roomId] == data.user
    ensures !data.isTyping ==> data.roomId !in r
    ensures forall k :: k != data.roomId ==> (k in r <==> k in typing)
    ensures forall k :: k != data.roomId && k in typing ==> r[k] == typing[k]
  {
    if data.isTyping then typing[data.roomId := data.user] else typing - {data.roomId}
  }

  /** Two typing signals for one room: only the second label stays visible. */
  lemma TypingLastWriterWins(typing: map<string, string>, roomId: string, first: string, second: string)
    ensures ApplyTyping(ApplyTyping(typing, TypingSignal(roomId, true, first)), TypingSignal(roomId, true, second))
         == ApplyTyping(typing, TypingSignal(roomId, true, second))
  {
  }

  /** A stop after a start leaves no entry for the room, as if the start never happened. */
  lemma TypingStartThenStop(typing: map<string, string>, roomId: string, user: string, other: string)
    ensures ApplyTyping(ApplyTyping(typing, TypingSignal(roomId, true, user)), TypingSignal(roomId, false, other))
         == ApplyTyping(typing, TypingSignal(roomId, false, other))
  {
  }

  /** A stop for a room that nobody is typing in changes nothing. */
  lemma TypingStopAbsentIsNoop(typing: map<string, string>, roomId: string, user: string)
    requires roomId !in typing
    ensures ApplyTyping(typing, TypingSignal(roomId, false, user)) == typing
  {
  }

  function HasAgent(userId: string): Room -> bool {
    (r: Room) => r.agentId == Some(userId)
  }

  /** `userId ? rooms.filter(r => r.agentId === userId) : rooms`. */
  function AgentRooms(rooms: seq<Room>, userId: Option<string>): (r: seq<Room>)
    ensures !Truthy(userId) ==> r == rooms
    ensures Truthy(userId) ==> forall i :: 0 <= i < |r| ==> r[i] in rooms && r[i].agentId == userId
    ensures Truthy(userId) ==> forall i :: 0 <= i < |rooms| && rooms[i].agentId == userId ==> rooms[i] in r
  {
    if Truthy(userId) then Filter(rooms, HasAgent(userId.value)) else rooms
  }

  /** Filtering by agent keeps the list order. */
  lemma AgentRoomsKeepOrder(a: seq<Room>, b: seq<Room>, userId: Option<string>)
    ensures AgentRooms(a + b, userId) == AgentRooms(a, userId) + AgentRooms(b, userId)
  {
    if Truthy(userId) {
      FilterAppend(a, b, HasAgent(userId.value));
    }
  }

  /** The head of the agent's rooms is the first room in list order whose agent
      is that user, and the list is empty exactly when no room is theirs. */
  lemma FirstAgentRoom(rooms: seq<Room>, userId: Option<string>)
    requires Truthy(userId)
    ensures AgentRooms(rooms, userId) == [] <==> forall i :: 0 <= i < |rooms| ==> rooms[i].agentId != userId
    ensures AgentRooms(rooms, userId) != [] ==>
      exists i :: 0 <= i < |rooms| && AgentRooms(rooms, userId)[0] == rooms[i] && rooms[i].agentId == userId &&
                  forall j :: 0 <= j < i ==> rooms[j].agentId != userId
  {
    FindIsHeadOfFilter(rooms, HasAgent(userId.value));
  }

  /** The client's state record. Socket emits are returned to the caller
      instead of being sent; remote fetches are split into the synchronous part
      of the action and a later completion step carrying the outcome. */
  class Store {
    var hasSocket: bool
    var isChatOpen: bool
    var activeRoomId: Option<string>
    var selectedUserId: Option<string>
    var messages: seq<Message>
    var users: seq<Person>
    var rooms: seq<Room>
    /** Room id to the label of whoever is typing there. */
    var typingUsers: map<string, string>
    var isLoading: bool
    var isLoadingMessages: bool

    constructor ()
      ensures !hasSocket && isChatOpen && activeRoomId == None && selectedUserId == None
      ensures messages == [] && users == [] && rooms == [] && typingUsers == map[]
      ensures !isLoading && !isLoadingMessages
    {
      hasSocket := false;
      isChatOpen := true;
      activeRoomId := None;
      selectedUserId := None;
      messages := [];
      users := [];
      rooms := [];
      typingUsers := map[];
      isLoading := false;
      isLoadingMessages := false;
    }

    /** The viewed room has no unread messages, and no count is negative. */
    ghost predicate Invariant()
      reads this
    {
      ActiveRoomRead(rooms, activeRoomId) && NonNegativeUnread(rooms)
    }

    /** Opens the socket once; later calls do nothing. */
    method InitSocket() returns (created: bool)
      modifies this`hasSocket
      ensures hasSocket
      ensures created == !old(hasSocket)
    {
      if hasSocket {
        created := false;
        return;
      }
      hasSocket := true;
      created := true;
    }

    /** The `receive_message` handler. */
    method ReceiveMessage(message: Message)
      requires hasSocket
      modifies this`messages, this`rooms
      ensures messages == if Some(message.roomId) == activeRoomId then old(messages) + [message] else old(messages)
      ensures rooms == ApplyReceive(old(rooms), message, activeRoomId)
      ensures old(Invariant()) ==> Invariant()
    {
      if Some(message.roomId) == activeRoomId {
        messages := messages + [message];
      }
      if Invariant() {
        ReceiveKeepsActiveRoomRead(rooms, message, activeRoomId);
        ReceiveKeepsNonNegative(rooms, message, activeRoomId);
      }
      rooms := ApplyReceive(rooms, message, activeRoomId);
    }

    /** The `user_typing` handler. */
    method UserTyping(data: TypingSignal)
      requires hasSocket
      modifies this`typingUsers
      ensures typingUsers == ApplyTyping(old(typingUsers), data)
    {
      var newTyping := typingUsers;
      if data.isTyping {
        newTyping := newTyping[data.roomId := data.user];
      } else {
        newTyping := newTyping - {data.roomId};
      }
      typingUsers := newTyping;
    }

    /** Opens a room: it becomes the viewed room with no unread messages, its
        history fetch starts, and `join_room` is emitted when a socket exists. */
    method SetActiveRoom(roomId: string) returns (join: Option<string>)
      modifies this`activeRoomId, this`isChatOpen, this`rooms, this`isLoadingMessages
      ensures activeRoomId == Some(roomId) && isChatOpen
      ensures rooms == ClearUnread(old(rooms), roomId)
      ensures isLoadingMessages
      ensures join == if hasSocket then Some(roomId) else None
      ensures ActiveRoomRead(rooms, activeRoomId)
      ensures NonNegativeUnread(old(rooms)) ==> Invariant()
    {
      activeRoomId, isChatOpen := Some(roomId), true;
      rooms := ClearUnread(rooms, roomId);
      isLoadingMessages := true;
      join := if hasSocket then Some(roomId) else None;
    }

    /** Selects an agent (or nobody) and opens the first room of the selection,
        or closes the chat when the selection has no room. */
    method SetSelectedUser(userId: Option<string>) returns (join: Option<string>)
      modifies this`selectedUserId, this`activeRoomId, this`isChatOpen, this`rooms, this`isLoadingMessages
      ensures selectedUserId == userId
      ensures var candidates := AgentRooms(old(rooms), userId);
        if candidates != [] then
          && activeRoomId == Some(candidates[0].id) && isChatOpen
          && rooms == ClearUnread(old(rooms), candidates[0].id) && isLoadingMessages
          && join == (if hasSocket then Some(candidates[0].id) else None)
        else
          && activeRoomId == None && !isChatOpen
          && rooms == old(rooms) && isLoadingMessages == old(isLoadingMessages)
          && join == None
      ensures AgentRooms(old(rooms), userId) != [] ==> ActiveRoomRead(rooms, activeRoomId)
      ensures NonNegativeUnread(old(rooms)) ==> Invariant()
    {
      selectedUserId := userId;
      var filteredRooms := AgentRooms(rooms, userId);
      if |filteredRooms| > 0 {
        join := SetActiveRoom(filteredRooms[0].id);
      } else {
        activeRoomId, isChatOpen := None, false;
        join := None;
      }
    }

    /** The `send_message` emit, when there is a socket and an open room. */
    method SendMessage(text: string) returns (emit: Option<SendIntent>)
      ensures emit.Some? <==> hasSocket && Truthy(activeRoomId)
      ensures emit.Some? ==> emit.value == SendIntent(activeRoomId.value, text, CurrentUser)
    {
      if !hasSocket || !Truthy(activeRoomId) {
        emit := None;
        return;
      }
      emit := Some(SendIntent(activeRoomId.value, text, CurrentUser));
    }

    /** The `typing` emit, when there is a socket. */
    method SetTyping(roomId: string, isTyping: bool) returns (emit: Option<TypingSignal>)
      ensures emit.Some? <==> hasSocket
      ensures emit.Some? ==> emit.value == TypingSignal(roomId, isTyping, OwnTypingLabel)
    {
      if !hasSocket {
        emit := None;
        return;
      }
      emit := Some(TypingSignal(roomId, isTyping, OwnTypingLabel));
    }

    /** A history fetch settles: on success its list replaces the messages; on
        failure only the loading flag is cleared. */
    method CompleteFetchMessages(response: Option<seq<Message>>)
      modifies this`messages, this`isLoadingMessages
      ensures !isLoadingMessages
      ensures messages == if response.Some? then response.value else old(messages)
    {
      if response.Some? {
        messages := response.value;
      }
      isLoadingMessages := false;
    }

    /** The synchronous start of the bootstrap fetch. */
    method BeginFetchAll()
      modifies this`isLoading
      ensures isLoading
    {
      isLoading := true;
    }

    /** The bootstrap fetch settles (after its delay the socket is opened): on
        success users and rooms are replaced and, when no room is open yet, the
        first room is opened; on failure only the loading flag is cleared. */
    method CompleteFetchAll(response: Option<(seq<Person>, seq<Room>)>) returns (created: bool, join: Option<string>)
      modifies this`hasSocket, this`users, this`rooms, this`isLoading
      modifies this`activeRoomId, this`isChatOpen, this`isLoadingMessages
      ensures hasSocket && created == !old(hasSocket)
      ensures !isLoading
      ensures response.None? ==>
        && users == old(users) && rooms == old(rooms) && activeRoomId == old(activeRoomId)
        && isChatOpen == old(isChatOpen) && isLoadingMessages == old(isLoadingMessages) && join == None
      ensures response.Some? ==>
        var (newUsers, newRooms) := response.value;
        && users == newUsers
        && if !Truthy(old(activeRoomId)) && |newRooms| > 0 then
             && activeRoomId == Some(newRooms[0].id) && isChatOpen && isLoadingMessages
             && rooms == ClearUnread(newRooms, newRooms[0].id) && join == Some(newRooms[0].id)
           else
             && rooms == newRooms && activeRoomId == old(activeRoomId) && isChatOpen == old(isChatOpen)
             && isLoadingMessages == old(isLoadingMessages) && join == None
      ensures response.None? && old(Invariant()) ==> Invariant()
      ensures response.Some? && NonNegativeUnread(response.value.1) ==> NonNegativeUnread(rooms)
      ensures response.Some? && NonNegativeUnread(response.value.1) && !Truthy(old(activeRoomId)) ==> Invariant()
    {
      created := InitSocket();
      join := None;
      if response.None? {
        isLoading := false;
        return;
      }
      var (newUsers, newRooms) := response.value;
      users, rooms, isLoading := newUsers, newRooms, false;
      if !Truthy(activeRoomId) && |newRooms| > 0 {
        join := SetActiveRoom(newRooms[0].id);
      }
    }
  }
}
