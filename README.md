# Chat message pipeline — a Dafny model

This project models the real-time chat part of a customer-support inbox. It has two stateful halves and two views.

- **The backend broker.** It keeps an in-memory message history per room (`messagesDb`) and a fixed list of rooms, each pairing one agent with one client. A tolerant history query returns an empty list for an unknown room. A rooms query joins every room to its client. Every socket is subscribed to rooms; a sent message is stored and emitted to everyone subscribed to its room, the sender included, and a typing signal is forwarded to everyone else in the room. When an agent writes in their own room, an auto-reply from the room's client is scheduled 1.5 s later.
- **The client store.** This is one state record. The `receive_message` handler appends to the open conversation and rewrites the room's summary: a 30-character preview with `...`, the time, and the unread count. The `user_typing` handler sets or deletes a typing entry. Opening a room clears its unread count. Selecting an agent opens that agent's first room, or closes the chat when the agent has none. Sending emits an intent only when there is a socket and an open room.
- **The room list view** (`ChatRail`): which rooms are listed, the title, the unread badge, the preview line, the name, the avatar initial and the presence dot.
- **The conversation view** (`ChatArea`): when it renders, the typing indicator, the ticks on own messages, and a composer whose send and input handlers drive the store and one stop-typing timer.

Modules follow the source files:

- `Js` holds the JavaScript built-ins the code relies on: `find`, `filter`, `trim`, truthiness of a nullable string, and upper-casing one character.
- `ChatTypes` holds the shared records.
- `Server` is `backend/src/server.ts`, with class `Broker`.
- `ChatStore` is `src/store/useChatStore.ts`, with class `Store`.
- `ChatRail` and `ChatArea` are the two components.

How the environment is modelled:

- Socket emits become returned values. The broker returns `Delivery` and `TypingDelivery` values that name the recipient sockets. The store returns the intent it would emit. The composer returns the store calls it makes.
- Timers become explicit steps that the environment runs later: `Broker.FireAutoReply` and `Composer.FireTypingTimeout`.
- Message ids and times come from the wall clock, so they are parameters. Nothing is claimed about their uniqueness or order.
- Remote fetches are split in two. The synchronous start of the action is one step. A completion step then receives the outcome, or `None` for a failed request.

The code is lenient in these places, and the model keeps that leniency:

- A send to a room that does not exist is accepted: its history list is created on the fly, and nothing is rejected.
- The server does not check `join_room` against the room list.
- The server does not reject blank texts. Only the composer refuses them.
- Message ids are `Date.now()` values, not a guaranteed increasing sequence.
- A send's unread increment happens on each client when the message is received. It is not a server-side summary update.

## Model

| member | source | states |
|---|---|---|
| Js.Find | backend/src/server.ts:152 | `find` returns nothing exactly when no element matches; otherwise it returns an element that matches and has no matching element before it |
| Js.Filter | src/store/useChatStore.ts:168 | every kept element is from the input and matches; every matching input element is kept; the result is no longer than the input |
| Js.FilterAppend | src/components/chat/ChatRail.tsx:12 | filtering a concatenation is the concatenation of the filtered parts, so the kept elements keep their relative order |
| Js.FindIsHeadOfFilter | src/store/useChatStore.ts:168-171 | `find` equals the head of `filter`, and is undefined exactly when the filter result is empty |
| Js.TrimStart | src/components/chat/ChatArea.tsx:16 | the result is a suffix of the input; everything dropped is white space; the result does not start with white space |
| Js.TrimEnd | src/components/chat/ChatArea.tsx:16 | the result is a prefix of the input; everything dropped is white space; the result does not end with white space |
| Js.TrimEmptyIffBlank | src/components/chat/ChatArea.tsx:16 | `trim()` gives the empty string exactly when every character is ECMAScript white space or a line terminator |
| Js.ToUpper | src/components/chat/ChatRail.tsx:88 | a lower-case ASCII letter becomes its upper-case letter; every other character is kept |
| Server.Appended | backend/src/server.ts:135-146 | one push adds the room's key if it was missing, appends the message last to that room's previous or empty list, and leaves every other room's history as it was |
| Server.HistoryOfSends | backend/src/server.ts:146 | after any sequence of pushes, each room's history is its old history followed by exactly the pushed messages for that room, in push order |
| Server.FreshRoomHistory | backend/src/server.ts:135-146 | N pushes to a room with no history leave exactly those N messages, in submission order |
| Server.RichRooms | backend/src/server.ts:106-113 | one entry per room, in order, with every room field but `clientId` kept; `otherUser` is present only as a client whose id is the room's `clientId`, and is absent exactly when no client has that id |
| Server.JoinAddsOneAudience | backend/src/server.ts:127-129 | joining a room adds exactly that socket to that room's audience and changes no other room's audience |
| Server.DisconnectLeavesOthers | backend/src/server.ts:174-175 | a disconnect removes only that socket from every audience |
| Server.ReplyText | backend/src/server.ts:159 | the reply is `I received your message: "`, then the original text verbatim, then a closing quote |
| Server.ScheduledReply | backend/src/server.ts:152-153 | an unknown room never schedules a reply; otherwise a reply is scheduled exactly when the first room with that id has the sender as its agent, and it targets the same room, the room's client and the original text |
| Server.ShippedClientNeverTriggersReply | backend/src/server.ts:52-62 | no seeded room has `currUser` as its agent, so a send from the shipped client never schedules a reply |
| Server.SeedRoomsCountsNonNegative | backend/src/server.ts:52-62 | the rooms query over the seeded rooms serves no negative unread count |
| Server.Broker.constructor | backend/src/server.ts:50-99 | the broker starts with the given rooms, clients and history, no sessions and no armed timers |
| Server.Broker.Connect | backend/src/server.ts:122-124 | a new socket, whose id is not yet connected, ends up subscribed to exactly the ids of all rooms; other sockets are unchanged |
| Server.Broker.JoinRoom | backend/src/server.ts:127-129 | `join_room` adds exactly one room to that socket's set and removes none |
| Server.Broker.Disconnect | backend/src/server.ts:174-175 | a disconnect removes the socket's subscriptions; histories and pending replies are untouched |
| Server.Broker.SendMessage | backend/src/server.ts:132-153 | the stored message copies room, sender and text, carries the given id and time, and has `read = true`; it is appended last to the room's previous or empty history, and other histories are unchanged; it is emitted to all subscribers of the room, the sender included when subscribed; exactly the reply `ScheduledReply` gives is queued |
| Server.Broker.FireAutoReply | backend/src/server.ts:154-165 | the oldest armed reply is appended to the same room's history, from the room's client, with the quoted text and `read = false`; it is emitted to that room's subscribers at firing time and leaves the queue; with nothing armed, nothing changes |
| Server.Broker.Typing | backend/src/server.ts:169-172 | the payload is forwarded unchanged to exactly the room's subscribers other than the sender, and no state changes |
| Server.Broker.GetMessages | backend/src/server.ts:115-118 | returns exactly the stored list for a known room and the empty list for an unknown one, with no side effect |
| Server.Broker.GetRooms | backend/src/server.ts:106-113 | the rooms query is the joined room list, computed without side effects |
| ChatStore.Preview | src/store/useChatStore.ts:118 | the summary text is at most 33 characters; a text of at most 30 characters is kept verbatim; a longer one becomes its first 30 characters followed by `...` |
| ChatStore.ApplyReceive | src/store/useChatStore.ts:115-122 | length and order are kept and every other room is unchanged; a room with the message's id keeps its identity and gets the preview text, the message time, and an unread count raised by one exactly when the sender is not `currUser` and the room is not the open one |
| ChatStore.ReceiveAll | src/store/useChatStore.ts:115-122 | any run of receives keeps the room list's length and the id at every position |
| ChatStore.UnreadAfterReceives | src/store/useChatStore.ts:120 | over any run of receives, a room's unread count rises by exactly the number of them that were for it, from someone else, while it was not open |
| ChatStore.ReceiveNeverLowersUnread | src/store/useChatStore.ts:120 | a receive never lowers any unread count |
| ChatStore.ReceiveKeepsActiveRoomRead | src/store/useChatStore.ts:120 | if the open room has no unread messages, it still has none after a receive |
| ChatStore.ReceiveKeepsNonNegative | src/store/useChatStore.ts:120 | a receive only ever adds to a count, so non-negative counts stay non-negative |
| ChatStore.ClearUnread | src/store/useChatStore.ts:154-156 | rooms with the opened id get unread count 0 and keep every other field; all other rooms, the length and the order are unchanged |
| ChatStore.ClearUnreadIdempotent | src/store/useChatStore.ts:150-156 | opening a room twice gives the same room list as opening it once, and the opened room has no unread messages |
| ChatStore.ApplyTyping | src/store/useChatStore.ts:125-134 | a start sets the room's entry to the given user; a stop removes it; every other key is untouched |
| ChatStore.TypingLastWriterWins | src/store/useChatStore.ts:128-129 | two starts for one room leave only the second label |
| ChatStore.TypingStartThenStop | src/store/useChatStore.ts:128-132 | a stop after a start leaves the same map as the stop alone, so the room has no entry |
| ChatStore.TypingStopAbsentIsNoop | src/store/useChatStore.ts:130-132 | a stop for a room with no entry changes nothing |
| ChatStore.AgentRooms | src/store/useChatStore.ts:168 | with no user, or an empty user id, all rooms; otherwise exactly the rooms whose agent is that user |
| ChatStore.AgentRoomsKeepOrder | src/store/useChatStore.ts:168 | the agent filter keeps list order, because it distributes over concatenation |
| ChatStore.FirstAgentRoom | src/store/useChatStore.ts:168-171 | the agent's room list is empty exactly when no room has that agent; otherwise its head is the first room in list order with that agent |
| ChatStore.Store.constructor | src/store/useChatStore.ts:81-97 | the initial state: no socket, chat open, nothing selected, no data, not loading |
| ChatStore.Store.InitSocket | src/store/useChatStore.ts:99-100 | a socket exists afterwards; one is created exactly when none existed, and nothing else changes |
| ChatStore.Store.ReceiveMessage | src/store/useChatStore.ts:109-123 | `messages` gains the message at the end exactly when it is for the open room; the rooms become `ApplyReceive` of the old rooms; the invariant (the open room is read and no count is negative) is kept |
| ChatStore.Store.UserTyping | src/store/useChatStore.ts:125-135 | the typing map becomes `ApplyTyping` of the old map |
| ChatStore.Store.SetActiveRoom | src/store/useChatStore.ts:150-163 | the room becomes the open room, the chat opens, that room's unread count becomes 0, the history fetch starts, and `join_room` is emitted exactly when a socket exists; the open room is read, and the invariant holds when no count was negative before |
| ChatStore.Store.SetSelectedUser | src/store/useChatStore.ts:165-175 | the selection is always stored; the first room of the user's rooms (all rooms when no user is given) is opened as by `SetActiveRoom`; when there is none, the open room is cleared and the chat is closed, with the rooms unchanged; the invariant holds when no count was negative before |
| ChatStore.Store.SendMessage | src/store/useChatStore.ts:231-240 | an intent is emitted exactly when a socket exists and a room is open; it carries the open room, the text as given and the sender `currUser` |
| ChatStore.Store.SetTyping | src/store/useChatStore.ts:242-246 | a typing signal labelled `You` is emitted exactly when a socket exists |
| ChatStore.Store.CompleteFetchMessages | src/store/useChatStore.ts:218-229 | loading ends; on success the fetched list replaces the messages; on failure the messages are kept |
| ChatStore.Store.BeginFetchAll | src/store/useChatStore.ts:177-178 | the bootstrap fetch marks the store as loading |
| ChatStore.Store.CompleteFetchAll | src/store/useChatStore.ts:177-216 | the socket is ensured and loading ends; on failure nothing else changes and the invariant is kept; on success users and rooms are replaced, and when no room was open and rooms exist, the first room is opened; served rooms without negative counts leave none, and establish the invariant when no room was open before |
| ChatRail.HeaderTitle | src/components/chat/ChatRail.tsx:9-10 | the name of the first user whose id is the selected id, and `Inbox` when no user has it |
| ChatRail.DisplayedRooms | src/components/chat/ChatRail.tsx:12 | every room when nobody (or an empty id) is selected; otherwise the listed rooms are rooms of the list whose agent is the selected user, and every such room is listed |
| ChatRail.EmptyNoticeIff | src/components/chat/ChatRail.tsx:63-80 | never while loading, when placeholders show instead; once loaded, `No chats found.` is shown exactly when there are no rooms (nobody selected) or no room has the selected agent |
| ChatRail.BadgeAfterReceive | src/components/chat/ChatRail.tsx:113 | after a receive, a room's badge shows exactly when the room is not open and it already had unread messages or the sender was someone else |
| ChatRail.PreviewLine | src/components/chat/ChatRail.tsx:122 | never empty; `Typing...` while a non-empty typing label exists for the room; otherwise the summary text when non-empty, else `No messages yet` |
| ChatRail.PreviewFollowsTyping | src/components/chat/ChatRail.tsx:122 | a start with a non-empty label turns the preview into `Typing...`; a stop brings back the summary or `No messages yet` |
| ChatRail.PreviewAfterReceive | src/components/chat/ChatRail.tsx:122 | with nobody typing, a received message shows as its preview, or as `No messages yet` when its text is empty |
| ChatRail.DisplayName | src/components/chat/ChatRail.tsx:87 | the joined client's name, or `Group Chat` when no client is joined |
| ChatRail.Initial | src/components/chat/ChatRail.tsx:88 | at most one character: empty for an empty name, otherwise the upper-cased first character |
| ChatRail.ServedRoomRow | src/components/chat/ChatRail.tsx:87-102 | a served room without a client of its id reads `Group Chat` under `G`, with no presence dot; otherwise its row shows the first client with that id, by name and initial, with the dot exactly when that client is online |
| ChatArea.ActiveRoom | src/components/chat/ChatArea.tsx:11 | a found room is in the list and has the open id; none is found exactly when no room has that id |
| ChatArea.RendersNothingIff | src/components/chat/ChatArea.tsx:37 | the view renders nothing exactly when nothing is loading and no room has the open id; with no open id, exactly when nothing is loading |
| ChatArea.HeaderName | src/components/chat/ChatArea.tsx:12 | the open room's client name, else `Select a chat` |
| ChatArea.TypingLabel | src/components/chat/ChatArea.tsx:13 | a label exists exactly when a room is open and has a typing entry, and it is that entry |
| ChatArea.IndicatorFollowsTyping | src/components/chat/ChatArea.tsx:37-160 | for the open room, a start makes the label the typing user, and the indicator shows exactly when that label is not empty, a room has the open id (otherwise the view renders nothing) and neither the rooms nor the history are loading; a stop hides the indicator |
| ChatArea.TickFor | src/components/chat/ChatArea.tsx:150-151 | a tick is shown exactly for the client's own messages, and it is the double check exactly when the message is read |
| ChatArea.Composer.constructor | src/components/chat/ChatArea.tsx:8-9 | the input starts empty and no timer is armed |
| ChatArea.Composer.HandleSend | src/components/chat/ChatArea.tsx:15-22 | a non-blank input with an open room sends the untrimmed text, then reports typing stopped for that room, clears the input and disarms the timer; otherwise no call is made and the input and timer are unchanged |
| ChatArea.Composer.HandleInput | src/components/chat/ChatArea.tsx:24-35 | the new value is always stored; with an open room, typing is reported started and the one timer slot is re-armed for that room; otherwise the timer is left as it was |
| ChatArea.Composer.FireTypingTimeout | src/components/chat/ChatArea.tsx:31-33 | the armed timer reports typing stopped for the room it was armed for and is then disarmed; the input is unchanged |

## Left out

- Transport and frameworks are not modelled: socket.io, Express, HTTP, CORS, Zustand and React. Emits are returned as values, and REST handlers are functions.
- socket.io also puts every socket in a room named after its own id. That room is not modelled.
- Remote fetches are modelled only by their outcomes: the axios calls, the live user directory call, and the 2000 ms and 1500 ms artificial delays.
- The mapping of directory users into `u1`…`u5` with alternating team and status is not modelled. The completion step receives users that are already mapped.
- Teams and channels are fetched but drive no chat behaviour, so they are left out.
- Wall-clock values are left out: `Date.now()` ids and `toLocaleTimeString` times are parameters. Their uniqueness and order are not claimed, because the source does not guarantee them.
- Timers are steps the environment takes. Nothing bounds when they fire.
- Auto-reply timers all have the same 1.5 s delay, so the queue fires them oldest first. Any other interleaving with later events is an explicit choice of the caller.
- Concurrency and interleaving are not modelled. The source runs on one event loop per process, so events are processed one at a time.
- A history fetch can resolve after another room was opened. That race, where the wrong room's messages are shown, is not modelled.
- Strings are sequences of Unicode scalar values. JavaScript's `substring(0, 30)`, `length` and `charAt(0)` count UTF-16 code units, so they can split a surrogate pair; the model does not.
- Js.ToUpper: upper-cases ASCII letters only. JavaScript's `toUpperCase` maps all of Unicode and can yield more than one character.
- `messagesDb` on the server and `typingUsers` in the store are plain objects whose keys can collide with `Object.prototype` members such as `constructor`. Such a room id reads an inherited, truthy value, for instance from `typingUsers` in the preview line and the typing label. Those keys are not modelled.
- ChatStore.Store.CompleteFetchAll: does not promise the store's `Invariant` when a room was already open. Server counts are static seeds, so after a refetch that room's count can be non-zero. Non-negative counts are still kept.
- Presentation is not modelled: CSS classes, the shape of the skeleton placeholders, the `Online` caption, the unused room `participants` field, and the room's `clientId`, which the rooms query keeps but no client code reads.
- The row rules (`ShowsBadge`, `PreviewLine`, `DisplayName`, `Initial`, `ShowsPresence`) and `TickFor` describe a rendered row or message. The views render rows and messages only once loading is over.
- The layout toggles (`toggleChat`, `closeChat`, `toggleSidebar`, `closeSidebar`, `toggleDetails`) only flip display flags and are not part of this model.
- The other components and pages are display-only and are not part of this model. Neither is the static mock data beyond the seeded room list.
