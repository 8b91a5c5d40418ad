/** The conversation view: whether it renders, its header, the typing
    indicator, message alignment and ticks, and the composer whose send and
    input handlers drive the store and a stop-typing timer. */
module ChatArea {
  import opened Js
  import opened ChatTypes
  import ChatStore

  const FallbackName: string := "Select a chat"

  function IsOpenRoom(activeRoomId: Option<string>): Room -> bool {
    (r: Room) => Some(r.id) == activeRoomId
  }

  /** `rooms.find(r => r.id === activeRoomId)`. */
  function ActiveRoom(rooms: seq<Room>, activeRoomId: Option<string>): (r: Option<Room>)
    ensures r.Some? ==> r.value in rooms && Some(r.value.id) == activeRoomId
    ensures r.None? <==> forall i :: 0 <= i < |rooms| ==> Some(rooms[i].id) != activeRoomId
  {
    Find(rooms, IsOpenRoom(activeRoomId))
  }

  /** The view renders nothing when no room is open and nothing is loading. */
  predicate RendersNothing(rooms: seq<Room>, activeRoomId: Option<string>, isLoading: bool) {
    ActiveRoom(rooms, activeRoomId).None? && !isLoading
  }

  /** It renders nothing exactly when nothing loads and no room carries the
      open id; with no open id at all, exactly when nothing loads. */
  lemma RendersNothingIff(rooms: seq<Room>, activeRoomId: Option<string>, isLoading: bool)
    ensures RendersNothing(rooms, activeRoomId, isLoading) <==>
      !isLoading && forall i :: 0 <= i < |rooms| ==> Some(rooms[i].id) != activeRoomId
    ensures activeRoomId == None ==> (RendersNothing(rooms, activeRoomId, isLoading) <==> !isLoading)
  {
  }

  /** The header name: the open room's client, else "Select a chat". */
  function HeaderName(rooms: seq<Room>, activeRoomId: Option<string>): (n: string)
    ensures ActiveRoom(rooms, activeRoomId).Some? && ActiveRoom(rooms, activeRoomId).value.otherUser.Some? ==>
      n == ActiveRoom(rooms, activeRoomId).value.otherUser.value.name
    ensures (ActiveRoom(rooms, activeRoomId).None? || ActiveRoom(rooms, activeRoomId).value.otherUser.None?) ==>
      n == FallbackName
  {
    match ActiveRoom(rooms, activeRoomId)
    case Some(room) => (match room.otherUser case Some(u) => u.name case None => FallbackName)
    case None => FallbackName
  }

  /** `activeRoomId ? typingUsers[activeRoomId] : null`. */
  function TypingLabel(activeRoomId: Option<string>, typingUsers: map<string, string>): (l: Option<string>)
    ensures l.Some? <==> Truthy(activeRoomId) && activeRoomId.value in typingUsers
    ensures l.Some? ==> l.value == typingUsers[activeRoomId.value]
  {
    if Truthy(activeRoomId) && activeRoomId.value in typingUsers then Some(typingUsers[activeRoomId.value]) else None
  }

  /** "<label> is typing..." is shown when the view renders at all, the label
      is there and not empty, and neither the room list nor the history is
      loading (placeholders are shown instead of the conversation then). */
  predicate ShowsTypingIndicator(rooms: seq<Room>, activeRoomId: Option<string>, typingUsers: map<string, string>,
                                 isLoading: bool, isLoadingMessages: bool) {
    var l := TypingLabel(activeRoomId, typingUsers);
    !RendersNothing(rooms, activeRoomId, isLoading) && !(isLoadingMessages || isLoading) && l.Some? && l.value != ""
  }

  /** For the open room, a typing start sets the label, which shows exactly
      when it is not empty, a room has the open id and nothing is loading; a
      stop hides the indicator. */
  lemma IndicatorFollowsTyping(rooms: seq<Room>, activeRoomId: Option<string>, typingUsers: map<string, string>,
                               data: TypingSignal, isLoading: bool, isLoadingMessages: bool)
    requires Truthy(activeRoomId) && data.roomId == activeRoomId.value
    ensures data.isTyping ==> TypingLabel(activeRoomId, ChatStore.ApplyTyping(typingUsers, data)) == Some(data.user)
    ensures data.isTyping ==>
      (ShowsTypingIndicator(rooms, activeRoomId, ChatStore.ApplyTyping(typingUsers, data), isLoading, isLoadingMessages) <==>
       data.user != "" && !isLoading && !isLoadingMessages && ActiveRoom(rooms, activeRoomId).Some?)
    ensures !data.isTyping ==>
      !ShowsTypingIndicator(rooms, activeRoomId, ChatStore.ApplyTyping(typingUsers, data), isLoading, isLoadingMessages)
  {
  }

  /** A message the client itself sent: drawn right-aligned, with a tick. */
  predicate IsOwn(m: Message) {
    m.senderId == CurrentUser
  }

  /** The single check and the double check. */
  datatype Tick = Sent | Read

  function TickFor(m: Message): (t: Option<Tick>)
    ensures t.Some? <==> IsOwn(m)
    ensures t == Some(Read) <==> IsOwn(m) && m.read
  {
    if IsOwn(m) then Some(if m.read then Read else Sent) else None
  }

  /** What a composer handler asks of the store. */
  datatype StoreCall = SendMessageCall(text: string) | SetTypingCall(roomId: string, isTyping: bool)

  /** The composer's local state: the input text and the one timer slot. */
  class Composer {
    var inputText: string
    /** The room the armed stop-typing timer will report for, when one is armed. */
    var pendingStop: Option<string>

    constructor ()
      ensures inputText == "" && pendingStop == None
    {
      inputText := "";
      pendingStop := None;
    }

    /** Enter or the send icon: a non-blank text for an open room is sent as
        typed, the input is cleared, typing is reported stopped and the timer
        is cancelled; otherwise nothing happens. */
    method HandleSend(activeRoomId: Option<string>) returns (calls: seq<StoreCall>)
      modifies this
      ensures !IsBlank(old(inputText)) && Truthy(activeRoomId) ==>
        && calls == [SendMessageCall(old(inputText)), SetTypingCall(activeRoomId.value, false)]
        && inputText == "" && pendingStop == None
      ensures !(!IsBlank(old(inputText)) && Truthy(activeRoomId)) ==>
        calls == [] && inputText == old(inputText) && pendingStop == old(pendingStop)
    {
      TrimEmptyIffBlank(inputText);
      calls := [];
      if Trim(inputText) != "" && Truthy(activeRoomId) {
        calls := calls + [SendMessageCall(inputText)];
        inputText := "";
        calls := calls + [SetTypingCall(activeRoomId.value, false)];
        if pendingStop.Some? {
          pendingStop := None;
        }
      }
    }

    /** A keystroke: the text is stored; with an open room typing is reported
        and the timer is re-armed for that room, replacing any armed one. */
    method HandleInput(value: string, activeRoomId: Option<string>) returns (calls: seq<StoreCall>)
      modifies this
      ensures inputText == value
      ensures Truthy(activeRoomId) ==>
        calls == [SetTypingCall(activeRoomId.value, true)] && pendingStop == Some(activeRoomId.value)
      ensures !Truthy(activeRoomId) ==> calls == [] && pendingStop == old(pendingStop)
    {
      inputText := value;
      calls := [];
      if Truthy(activeRoomId) {
        calls := [SetTypingCall(activeRoomId.value, true)];
        pendingStop := Some(activeRoomId.value);
      }
    }

    /** The armed timer fires and reports typing stopped for the room it was armed for. */
    method FireTypingTimeout() returns (calls: seq<StoreCall>)
      modifies this
      ensures old(pendingStop).Some? ==> calls == [SetTypingCall(old(pendingStop).value, false)]
      ensures old(pendingStop).None? ==> calls == []
      ensures pendingStop == None && inputText == old(inputText)
    {
      calls := [];
      if pendingStop.Some? {
        calls := [SetTypingCall(pendingStop.value, false)];
      }
      pendingStop := None;
    }
  }
}
