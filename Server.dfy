/** The chat backend: the in-memory message store (`messagesDb`), the REST read
    models over it and over the room list, socket subscriptions with the
    fan-out of `receive_message` and `user_typing`, and the demo
    auto-responder whose 1.5 s timer is an explicit queue of pending replies
    that the environment fires later. */
module Server {
  import opened Js
  import opened ChatTypes

  /** Room id to the messages stored for it, in append order. */
  type MessageDb = map<string, seq<Message>>

  /** Each connected socket and the rooms it has joined. */
  type Sessions = map<SessionId, set<string>>

  /** One `receive_message` emit: the event and the sockets it reaches. */
  datatype Delivery = Delivery(message: Message, recipients: set<SessionId>)

  /** One `user_typing` emit: the payload, forwarded as received, and the sockets it reaches. */
  datatype TypingDelivery = TypingDelivery(signal: TypingSignal, recipients: set<SessionId>)

  /** A scheduled auto-reply: what its timer callback captured when it was armed. */
  datatype AutoReply = AutoReply(roomId: string, clientId: string, text: string)

  // ---------------------------------------------------------------------------
  // Message store and history query

  /** `messagesDb[roomId] || []`: the stored list, or the empty list for a room
      nothing was ever stored for. */
  function History(db: MessageDb, roomId: string): seq<Message> {
    if roomId in db then db[roomId] else []
  }

  /** The store after one push onto `m.roomId`'s list, the list being created
      empty first when the room has none. */
  function Appended(db: MessageDb, m: Message): (r: MessageDb)
    ensures r.Keys == db.Keys + {m.roomId}
    ensures History(r, m.roomId) == History(db, m.roomId) + [m]
    ensures forall k :: k != m.roomId ==> History(r, k) == History(db, k)
  {
    db[m.roomId := History(db, m.roomId) + [m]]
  }

  /** The store after the messages of `ms` are pushed one after another. */
  function AppendedAll(db: MessageDb, ms: seq<Message>): MessageDb
    decreases |ms|
  {
    if ms == [] then db else AppendedAll(Appended(db, ms[0]), ms[1..])
  }

  function InRoom(roomId: string): Message -> bool {
    (m: Message) => m.roomId == roomId
  }

  /** One push adds the message to its own room's history and to no other. */
  lemma HistoryAfterPush(db: MessageDb, m: Message, roomId: string)
    ensures History(Appended(db, m), roomId) == History(db, roomId) + (if m.roomId == roomId then [m] else [])
  {
  }

  /** After any sequence of pushes, a room's history is its old history followed
      by exactly the pushed messages that belong to it, in push order. */
  lemma {:induction false} HistoryOfSends(db: MessageDb, ms: seq<Message>, roomId: string)
    ensures History(AppendedAll(db, ms), roomId) == History(db, roomId) + Filter(ms, InRoom(roomId))
    decreases |ms|
  {
    if ms != [] {
      var next := Appended(db, ms[0]);
      var head: seq<Message> := if ms[0].roomId == roomId then [ms[0]] else [];
      HistoryOfSends(next, ms[1..], roomId);
      HistoryAfterPush(db, ms[0], roomId);
      assert Filter(ms, InRoom(roomId)) == head + Filter(ms[1..], InRoom(roomId));
    }
  }

  /** N pushes to a room with no history leave exactly those N messages, in order. */
  lemma FreshRoomHistory(db: MessageDb, ms: seq<Message>, roomId: string)
    requires roomId !in db
    requires forall i :: 0 <= i < |ms| ==> ms[i].roomId == roomId
    ensures History(AppendedAll(db, ms), roomId) == ms
  {
    HistoryOfSends(db, ms, roomId);
    FilterKeepsAll(ms, InRoom(roomId));
  }

  // ---------------------------------------------------------------------------
  // Room list query

  function IsClient(id: string): Person -> bool {
    (c: Person) => c.id == id
  }

  /** `{ ...room, otherUser: clients.find(c => c.id === room.clientId) }`. */
  function Enrich(room: RoomRecord, clients: seq<Person>): Room {
    Room(room.id, room.kind, Some(room.agentId), Find(clients, IsClient(room.clientId)),
         room.lastMessageText, room.lastMessageTime, room.unreadCount)
  }

  /** GET /api/rooms: every room, in order, joined with its client. */
  function RichRooms(rooms: seq<RoomRecord>, clients: seq<Person>): (r: seq<Room>)
    ensures |r| == |rooms|
    ensures forall i :: 0 <= i < |rooms| ==>
      && r[i].id == rooms[i].id && r[i].kind == rooms[i].kind
      && r[i].agentId == Some(rooms[i].agentId)
      && r[i].lastMessageText == rooms[i].lastMessageText
      && r[i].lastMessageTime == rooms[i].lastMessageTime
      && r[i].unreadCount == rooms[i].unreadCount
      && (r[i].otherUser.Some? ==>
            r[i].otherUser.value in clients && r[i].otherUser.value.id == rooms[i].clientId)
      && (r[i].otherUser.None? <==> forall j :: 0 <= j < |clients| ==> clients[j].id != rooms[i].clientId)
  {
    seq(|rooms|, i requires 0 <= i < |rooms| => Enrich(rooms[i], clients))
  }

  // ---------------------------------------------------------------------------
  // Subscriptions and fan-out

  /** The sockets that `io.to(roomId)` reaches. */
  function Subscribers(sessions: Sessions, roomId: string): set<SessionId> {
    set s | s in sessions && roomId in sessions[s]
  }

  function RoomIds(rooms: seq<RoomRecord>): set<string> {
    set r | r in rooms :: r.id
  }

  lemma RoomIdsSnoc(rooms: seq<RoomRecord>, r: RoomRecord)
    ensures RoomIds(rooms + [r]) == RoomIds(rooms) + {r.id}
  {
    assert forall x :: x in rooms + [r] <==> x in rooms || x == r;
  }

  /** Joining a room adds the socket to that room's audience and changes no other room's. */
  lemma JoinAddsOneAudience(sessions: Sessions, sid: SessionId, roomId: string, other: string)
    requires sid in sessions
    ensures Subscribers(sessions[sid := sessions[sid] + {roomId}], roomId) == Subscribers(sessions, roomId) + {sid}
    ensures other != roomId ==>
      Subscribers(sessions[sid := sessions[sid] + {roomId}], other) == Subscribers(sessions, other)
  {
  }

  /** A disconnect takes the socket out of every audience and nobody else. */
  lemma DisconnectLeavesOthers(sessions: Sessions, sid: SessionId, roomId: string)
    ensures Subscribers(sessions - {sid}, roomId) == Subscribers(sessions, roomId) - {sid}
  {
  }

  // ---------------------------------------------------------------------------
  // Auto-responder

  const ReplyPrefix: string := "I received your message: \""

  /** `I received your message: "${text}"`: the original text, quoted. */
  function ReplyText(text: string): (r: string)
    ensures |r| == |ReplyPrefix| + |text| + 1
    ensures r[..|ReplyPrefix|] == ReplyPrefix
    ensures r[|ReplyPrefix|..|r| - 1] == text
    ensures r[|r| - 1] == '"'
  {
    ReplyPrefix + text + "\""
  }

  function HasId(id: string): RoomRecord -> bool {
    (r: RoomRecord) => r.id == id
  }

  /** The reply a send schedules: one exactly when the first room with the
      intent's id exists and names the sender as its agent. */
  function ScheduledReply(rooms: seq<RoomRecord>, intent: SendIntent): (r: Option<AutoReply>)
    ensures (forall i :: 0 <= i < |rooms| ==> rooms[i].id != intent.roomId) ==> r.None?
    ensures forall i :: 0 <= i < |rooms| && rooms[i].id == intent.roomId &&
                        (forall j :: 0 <= j < i ==> rooms[j].id != intent.roomId) ==>
              && (r.Some? <==> rooms[i].agentId == intent.senderId)
              && (r.Some? ==> r.value == AutoReply(intent.roomId, rooms[i].clientId, intent.text))
  {
    match Find(rooms, HasId(intent.roomId))
    case Some(room) =>
      if intent.senderId == room.agentId then Some(AutoReply(intent.roomId, room.clientId, intent.text)) else None
    case None => None
  }

  /** The rooms the backend starts with. */
  const SeedRooms: seq<RoomRecord> := [
    RoomRecord("room1", "direct", "u2", "c1", "I'll try it ASAP, thank..", "23:23", 0),
    RoomRecord("room2", "direct", "u2", "c2", "Are we still on for...", "23:16", 1),
    RoomRecord("room3", "direct", "u1", "c3", "Can you help me with my account?", "22:28", 2),
    RoomRecord("room4", "direct", "u1", "c4", "Perfect, everything works now. Thanks!", "14:10", 0),
    RoomRecord("room5", "direct", "u3", "c1", "Can we schedule a call for tomorrow?", "09:00", 0),
    RoomRecord("room6", "direct", "u4", "c5", "Looking forward to it!", "10:30", 0),
    RoomRecord("room7", "direct", "u5", "c6", "I have a question about the invoice.", "11:45", 1)
  ]

  /** No seeded room has the client's own sender id as its agent, so a send from
      the shipped client never schedules an auto-reply. */
  lemma ShippedClientNeverTriggersReply(roomId: string, text: string)
    ensures ScheduledReply(SeedRooms, SendIntent(roomId, text, CurrentUser)) == None
  {
    assert forall i :: 0 <= i < |SeedRooms| ==> SeedRooms[i].agentId != CurrentUser;
  }

  /** The rooms query over the seeded rooms carries no negative unread count. */
  lemma SeedRoomsCountsNonNegative(clients: seq<Person>)
    ensures forall i :: 0 <= i < |RichRooms(SeedRooms, clients)| ==> RichRooms(SeedRooms, clients)[i].unreadCount >= 0
  {
    assert forall i :: 0 <= i < |SeedRooms| ==> SeedRooms[i].unreadCount >= 0;
  }

  // ---------------------------------------------------------------------------
  // The broker

  class Broker {
    const rooms: seq<RoomRecord>
    const clients: seq<Person>
    var messagesDb: MessageDb
    var sessions: Sessions
    /** Armed auto-reply timers in firing order: all share one delay, so they
        fire in the order they were armed. */
    var pending: seq<AutoReply>

    /** Every armed reply's room has a list to push onto: lists are created at
        send time and never removed. */
    ghost predicate Valid()
      reads this
    {
      forall i :: 0 <= i < |pending| ==> pending[i].roomId in messagesDb
    }

    constructor (rooms: seq<RoomRecord>, clients: seq<Person>, messagesDb: MessageDb)
      ensures this.rooms == rooms && this.clients == clients && this.messagesDb == messagesDb
      ensures sessions == map[] && pending == []
      ensures Valid()
    {
      this.rooms := rooms;
      this.clients := clients;
      this.messagesDb := messagesDb;
      sessions := map[];
      pending := [];
    }

    /** A new connection, with a socket id not seen before, joins every room in
        the room list, one after another. */
    method Connect(sid: SessionId)
      requires sid !in sessions
      modifies this`sessions
      ensures sessions == old(sessions)[sid := RoomIds(rooms)]
    {
      sessions := sessions[sid := {}];
      var i := 0;
      assert RoomIds(rooms[..0]) == {};
      while i < |rooms|
        invariant 0 <= i <= |rooms|
        invariant sessions == old(sessions)[sid := RoomIds(rooms[..i])]
      {
        assert rooms[..i + 1] == rooms[..i] + [rooms[i]];
        RoomIdsSnoc(rooms[..i], rooms[i]);
        sessions := sessions[sid := sessions[sid] + {rooms[i].id}];
        i := i + 1;
      }
      assert rooms[..i] == rooms;
    }

    /** `join_room`: one more room for this socket, none removed. */
    method JoinRoom(sid: SessionId, roomId: string)
      requires sid in sessions
      modifies this`sessions
      ensures sessions == old(sessions)[sid := old(sessions)[sid] + {roomId}]
    {
      sessions := sessions[sid := sessions[sid] + {roomId}];
    }

    /** A disconnect drops the socket's subscriptions and touches nothing else. */
    method Disconnect(sid: SessionId)
      modifies this`sessions
      ensures sessions == old(sessions) - {sid}
    {
      sessions := sessions - {sid};
    }

    /** `send_message`: store the message, emit it to the room, maybe arm an auto-reply. */
    method SendMessage(sid: SessionId, intent: SendIntent, id: int, time: string) returns (d: Delivery)
      requires Valid()
      modifies this`messagesDb, this`pending
      ensures Valid()
      ensures d.message == Message(id, intent.roomId, intent.senderId, intent.text, time, true)
      ensures messagesDb == Appended(old(messagesDb), d.message)
      ensures d.recipients == Subscribers(sessions, intent.roomId)
      ensures sid in sessions && intent.roomId in sessions[sid] ==> sid in d.recipients
      ensures pending == old(pending) + match ScheduledReply(rooms, intent)
                                        case Some(p) => [p]
                                        case None => []
    {
      var roomId, text, senderId := intent.roomId, intent.text, intent.senderId;
      if roomId !in messagesDb {
        messagesDb := messagesDb[roomId := []];
      }
      var newMessage := Message(id, roomId, senderId, text, time, true);
      messagesDb := messagesDb[roomId := messagesDb[roomId] + [newMessage]];
      d := Delivery(newMessage, Subscribers(sessions, roomId));
      var activeRoom := Find(rooms, HasId(roomId));
      if activeRoom.Some? && senderId == activeRoom.value.agentId {
        pending := pending + [AutoReply(roomId, activeRoom.value.clientId, text)];
      }
    }

    /** The oldest armed auto-reply timer fires: the client's reply is stored in
        the same room and emitted to whoever is subscribed now. */
    method FireAutoReply(id: int, time: string) returns (d: Option<Delivery>)
      requires Valid()
      modifies this`messagesDb, this`pending
      ensures Valid()
      ensures old(pending) == [] ==> d == None && messagesDb == old(messagesDb) && pending == []
      ensures old(pending) != [] ==>
        var p := old(pending)[0];
        var reply := Message(id, p.roomId, p.clientId, ReplyText(p.text), time, false);
        && d == Some(Delivery(reply, Subscribers(sessions, p.roomId)))
        && messagesDb == Appended(old(messagesDb), reply)
        && pending == old(pending)[1..]
    {
      if pending == [] {
        d := None;
        return;
      }
      var p := pending[0];
      pending := pending[1..];
      var replyMessage := Message(id, p.roomId, p.clientId, ReplyText(p.text), time, false);
      messagesDb := messagesDb[p.roomId := messagesDb[p.roomId] + [replyMessage]];
      d := Some(Delivery(replyMessage, Subscribers(sessions, p.roomId)));
    }

    /** `typing`: forwarded unchanged to the room's other sockets; no state changes. */
    method Typing(sid: SessionId, signal: TypingSignal) returns (d: TypingDelivery)
      ensures d.signal == signal
      ensures sid !in d.recipients
      ensures forall s :: s in d.recipients <==> s != sid && s in sessions && signal.roomId in sessions[s]
    {
      d := TypingDelivery(signal, Subscribers(sessions, signal.roomId) - {sid});
    }

    /** GET /api/messages/:roomId against the current store, which it leaves alone. */
    method GetMessages(roomId: string) returns (h: seq<Message>)
      ensures roomId in messagesDb ==> h == messagesDb[roomId]
      ensures roomId !in messagesDb ==> h == []
    {
      h := History(messagesDb, roomId);
    }

    /** GET /api/rooms. */
    method GetRooms() returns (r: seq<Room>)
      ensures r == RichRooms(rooms, clients)
    {
      r := RichRooms(rooms, clients);
    }
  }
}
