# SkillForge live classes and communities, modelled in Dafny

This project models the decision logic of SkillForge's live classes and tutor-run communities. It has five parts.

- **The chat panel of a live class** (`ClassRoomDetail.jsx`):
  - the client-side denylist check;
  - the derivation of the realtime channel URL from the configured base address;
  - the handling of inbound frames;
  - the guarded send of an outbound chat frame.
- **The community back end** (`community/views.py`):
  - join requests, and their approval or rejection by the community's tutor;
  - removal and exit of participants;
  - the community, join-request and live-class listings;
  - the soft close of a live class.
- **The participants tab** (`ParticipantsTab.jsx`): the tutor's join-request panel with its status filter and toggle, the approve/reject controls, and confirm-gated removal.
- **The live-classes page** (`LiveClassesPage.jsx`): loading the classes, and the create form with its title check and generated Jitsi room address.
- **The realtime route table** (`community/routing.py`): three patterns, with a hand-written matcher proved equal to a declarative description of each pattern. It is also proved when the channel the chat panel opens reaches the live-class consumer. The proof covers bases that the browser's URL parser reads literally: a plain host and port, then a path of plain characters (`ChatClient.LiteralBase`). For such a base, the consumer is reached if and only if the base carries no path after its host other than slashes. A base such as `https://host/api` or `https://host/ws` puts its own path in front of `/ws/live-class/<id>/`, and that path never reaches the live-class consumer.

The project is laid out by module:

- Modules `Wrappers`, `Fetch` and `Collections` hold the shared pieces:
  - `Option`;
  - the outcome of a component's list request and the list it keeps;
  - first-index search;
  - an order-keeping filter;
  - a descending sort standing in for `order_by('-…')`.
- Module `JsString` models the JavaScript string built-ins the components use:
  - `startsWith` and `includes`;
  - `toLowerCase`;
  - `trim`, over the JavaScript white-space and line-terminator characters;
  - the decimal rendering of a number in a template literal, for numbers below 10^21 (JavaScript writes larger ones in exponent form).
- The code that changes state step by step is modelled with classes:
  - the server's tables form a `Community.Store` object;
  - each React component's state is an object (`ChatClient.ChatSession`, `ParticipantsTab.Panel`, `LiveClassesPage.Page`).
- Every method states the complete new state of its object.
- Network and browser calls (HTTP requests, `alert`, page reloads) are appended to an effect log. Their outcomes, the clock and the user's answer to `confirm` are parameters.

A successful send does not append to the local chat log: a sent line appears only when the server echoes it back as a `chat_message` frame.

Removing a participant leaves that user's join request approved. A student who joins again is therefore told they are already approved, and is not added back.

## Model

| member | source | states |
|---|---|---|
| ChatClient.ContainsBanned | frontend/src/components/LiveClasses/ClassRoomDetail.jsx:7-11 | absent or empty text is never blocked |
| ChatClient.ContainsBannedIffSubstring | frontend/src/components/LiveClasses/ClassRoomDetail.jsx:5-10 | text is blocked iff some denylist term is a substring of the lower-cased text |
| ChatClient.BannedTermInAnyCasing | frontend/src/components/LiveClasses/ClassRoomDetail.jsx:9-10 | a denylist term written in any letter case, anywhere in the text, blocks it |
| ChatClient.ContainsBannedIgnoresCase | frontend/src/components/LiveClasses/ClassRoomDetail.jsx:9-10 | texts equal up to letter case are blocked alike |
| ChatClient.ResolveBase | frontend/src/components/LiveClasses/ClassRoomDetail.jsx:21 | the base is the first truthy value of `VITE_API_WS` and `VITE_API_URL`, else the local default; it is never empty |
| ChatClient.WsScheme | frontend/src/components/LiveClasses/ClassRoomDetail.jsx:22 | the scheme is `wss` iff the base starts with `https`, otherwise `ws` |
| ChatClient.WsHost | frontend/src/components/LiveClasses/ClassRoomDetail.jsx:23 | the host is the base with one leading `http://` or `https://` removed, and the base unchanged otherwise |
| ChatClient.WsUrlReplacesHttpWithWs | frontend/src/components/LiveClasses/ClassRoomDetail.jsx:21-24 | for an http(s) base the channel URL is the base with `http` replaced by `ws`, then `/ws/live-class/<id>/` |
| ChatClient.ChannelPath | frontend/src/components/LiveClasses/ClassRoomDetail.jsx:21-24 | the request path of the channel URL, read literally: everything from the first `/` after `scheme://`; it always starts with `/` |
| ChatClient.ChannelPathShape | frontend/src/components/LiveClasses/ClassRoomDetail.jsx:21-24 | the literal request path of the channel URL is the path the base carries after its host, followed by `/ws/live-class/<id>/` |
| ChatClient.ChannelPathIff | frontend/src/components/LiveClasses/ClassRoomDetail.jsx:21-24 | the literal request path is exactly `/ws/live-class/<id>/` iff the host part of the base contains no `/` |
| ChatClient.WsUrlOfOtherBase | frontend/src/components/LiveClasses/ClassRoomDetail.jsx:22-24 | any base not starting with `http`, including a `wss://` address, is kept whole behind `ws://` |
| ChatClient.Receive | frontend/src/components/LiveClasses/ClassRoomDetail.jsx:28-39 | a chat frame appends exactly one entry (user, content, arrival time) at the end and keeps earlier entries; any other frame, malformed included, leaves the log unchanged |
| ChatClient.AlertFor | frontend/src/components/LiveClasses/ClassRoomDetail.jsx:33-35 | a frame raises a notice iff it is a moderation rejection, and the notice is its message |
| ChatClient.ReceiveAllAppendsInOrder | frontend/src/components/LiveClasses/ClassRoomDetail.jsx:28-39 | a run of frames extends the log by exactly its chat messages, in arrival order |
| ChatClient.NoticeFor | frontend/src/components/LiveClasses/ClassRoomDetail.jsx:50-57 | a blocked send shows the moderation notice and a send while not connected shows the not-connected notice, each exactly once; a blank input or a successful send shows none |
| ChatClient.SendDecisionSentIff | frontend/src/components/LiveClasses/ClassRoomDetail.jsx:49-58 | a frame goes out iff the input is not blank, passes the filter and the socket is open; blank and blocked are characterised both ways |
| ChatClient.NoSendOnceClosing | frontend/src/components/LiveClasses/ClassRoomDetail.jsx:44-52 | once the socket is closing or closed, as after unmounting, no frame is sent, whatever the input |
| ChatClient.BannedTermBlocksSend | frontend/src/components/LiveClasses/ClassRoomDetail.jsx:50-51 | a message containing a denylist term in any letter case is blocked in every connection state |
| ChatClient.ChatSession.constructor | frontend/src/components/LiveClasses/ClassRoomDetail.jsx:14-26 | mounting connects to the derived URL; the log and the input start empty |
| ChatClient.ChatSession.SetInput | frontend/src/components/LiveClasses/ClassRoomDetail.jsx:89 | typing replaces the input |
| ChatClient.ChatSession.OnMessage | frontend/src/components/LiveClasses/ClassRoomDetail.jsx:28-39 | the log becomes `Receive` of the old log, and the notices grow by `AlertFor` |
| ChatClient.ChatSession.SendMessage | frontend/src/components/LiveClasses/ClassRoomDetail.jsx:49-58 | on success exactly one frame `{message: input, user, type: "chat"}` with the untrimmed input is sent and the input is cleared; otherwise nothing is sent and the input stays; the log never changes |
| ChatClient.ChatSession.SocketStateChanged | frontend/src/components/LiveClasses/ClassRoomDetail.jsx:52 | the socket's ready state, which the send guard reads, is set by the browser; it only moves forward through connecting, open, closing, closed |
| ChatClient.ChatSession.Unmount | frontend/src/components/LiveClasses/ClassRoomDetail.jsx:44-46 | unmounting closes the socket: its state becomes closing, or stays closed |
| JsString.IncludesIsSubstring | frontend/src/components/LiveClasses/ClassRoomDetail.jsx:10 | `includes` is true iff the term occurs at some position |
| JsString.Lower | frontend/src/components/LiveClasses/ClassRoomDetail.jsx:9 | lower-casing keeps the length and maps each character |
| JsString.TrimEmptyIffBlank | frontend/src/components/LiveClasses/ClassRoomDetail.jsx:50 | the trimmed input is empty iff every character is white space |
| JsString.NatToString | frontend/src/components/LiveClasses/LiveClassesPage.jsx:34 | a number below 10^21 renders as a non-empty string of decimal digits with no leading zero; only 0 renders as `0` |
| JsString.DecimalRoundTrip | frontend/src/components/LiveClasses/LiveClassesPage.jsx:34 | every digit string without a leading zero is the rendering of the number it denotes |
| JsString.NatToStringRoundTrip | frontend/src/components/LiveClasses/LiveClassesPage.jsx:34 | reading the rendered digits back gives the number |
| JsString.NatToStringInjective | frontend/src/components/LiveClasses/LiveClassesPage.jsx:34 | different numbers render differently |
| Routing.SpanEnd | community/routing.py:7-9 | the greedy `+` run ends at the first character outside the class |
| Routing.MatchAtIff | community/routing.py:7-9 | the matcher at one position accepts exactly prefix, a non-empty in-class parameter, `/`, end of path, and captures exactly that parameter |
| Routing.SearchFromSound | community/routing.py:8 | what the unanchored search captures is a match at some start position |
| Routing.SearchFromComplete | community/routing.py:8 | if the pattern matches at some start position, the search finds a match |
| Routing.SearchFromNone | community/routing.py:8 | if no start position matches, the search fails |
| Routing.AnchoredRouteIff | community/routing.py:7-9 | an anchored route matches iff the whole path is prefix, parameter, `/` |
| Routing.LiveClassRouteIff | community/routing.py:9 | the live-class route matches iff the path is `ws/live-class/<one or more digits>/`, capturing `class_id` as those digits |
| Routing.LiveClassRouteRejectsBadId | community/routing.py:9 | an empty or non-numeric id does not match |
| Routing.LiveClassRouteNeedsTrailingSlash | community/routing.py:9 | a live-class path without the closing `/` does not match |
| Routing.CommunityRouteIff | community/routing.py:7 | the community route matches iff the path is `ws/community/<word characters or ->/` |
| Routing.CommunitySlugHasNoSlash | community/routing.py:7 | a captured slug never contains `/` |
| Routing.NotificationMatchUnique | community/routing.py:8 | the notifications pattern can sit at only one place at the end of a path |
| Routing.NotificationsRouteIff | community/routing.py:8 | the notifications route matches iff some suffix of the path is `ws/notifications/<digits>/`, capturing `user_id` |
| Routing.NotificationsRouteUnanchored | community/routing.py:8 | having no `^`, the notifications route matches behind any leading text |
| Routing.ResolveIn | community/routing.py:6-10 | dispatch picks the first route in the list that matches, with its consumer and capture, and fails iff none matches |
| Routing.CommunityRouteMissesLiveClassPath | community/routing.py:7 | a live-class path never reaches the community consumer |
| Routing.NotificationsRouteMissesLiveClassPath | community/routing.py:8 | a live-class path with a numeric id never reaches the notification consumer |
| Routing.ChatPathReachesLiveClass | community/routing.py:6-10 | for every non-empty numeric id, the path `/ws/live-class/<id>/`, with its leading `/` stripped as the router does, resolves to the live-class consumer with `class_id` equal to the id |
| Routing.ClassIdPathReachesLiveClass | frontend/src/components/LiveClasses/ClassRoomDetail.jsx:24 | the same for a class's numeric id rendered by the template literal |
| Routing.ChannelUrlReachesLiveClass | frontend/src/components/LiveClasses/ClassRoomDetail.jsx:21-24 | for a literally parsed base whose path after its host is empty or only slashes, the panel's request path, stripped of its leading slashes, resolves to the live-class consumer with `class_id` equal to the class's id |
| Routing.LiveClassConsumerPath | community/routing.py:9 | a path reaches the live-class consumer only if it is `ws/live-class/<digits>/`, and the captured `class_id` is those digits |
| Routing.BasePathMissesLiveClass | community/routing.py:9 | for a literally parsed base that carries any path after its host other than slashes (such as `https://host/api` or `https://host/ws`), the panel's request path never reaches the live-class consumer; with `ChannelUrlReachesLiveClass` this is an iff |
| Community.FindCommunity | community/views.py:83 | the community with the slug, found iff one exists |
| Community.FindRequest | community/views.py:94-149 | the join request of the community with the given key, found iff one exists: by user for `get_or_create` (line 94), by primary key for `get_object_or_404` (line 149) |
| Community.FindActiveClass | community/views.py:267 | the lookup of a live class, which only finds active classes |
| Community.VisibleCommunities | community/views.py:55-70 | a tutor sees exactly its own communities, anyone else all of them, each as many times as it is stored, highest id first |
| Community.JoinRequestList | community/views.py:131-137 | an unknown slug is 404; the list is empty for anyone but the owning tutor; for the owner it holds exactly the community's requests, each as many times as it is stored, newest first |
| Community.ActiveLiveClasses | community/views.py:265-268 | the listing holds exactly the active classes, newest first |
| Community.ActiveLiveClassesCount | community/views.py:265-268 | the active listing holds each active class as many times as it is stored, and no closed one |
| Community.CloseRemovesFromActiveList | community/views.py:275-282 | closing a class keeps every record, removes that class from the active listing and keeps the other active classes listed |
| Community.PermissionsByAction | community/views.py:260-263 | a tutor passes the check of every action; anyone else passes it exactly for the actions other than create, destroy, update and partial_update; `Store.Destroy` applies the same check |
| Community.Store.Join | community/views.py:78-124 | per the ordered guards: 404 for an unknown slug; 400 and no change for a participant; a student's first join creates one pending request; repeat joins: pending and approved unchanged, rejected reset to pending; otherwise a body the serializer rejects is 400 with its errors, and an accepted one adds the user directly, or gives 400 with the raised message |
| Community.Store.Respond | community/views.py:143-173 | 404, then 403 for anyone but the owning tutor, then 404; approve sets approved, adds the user and creates one notification; reject sets rejected and creates one notification; any other action is 400; only those changes |
| Community.Store.RemoveParticipant | community/views.py:179-198 | 403 for a non-owner; 400 for a missing or zero `user_id`, or for a user who is not a participant; otherwise exactly that user leaves and one notification is created |
| Community.Store.Exit | community/views.py:218-232 | 400 and no change for a non-member; otherwise the user leaves, or 400 with the raised message |
| Community.Store.CloseActiveClass | community/views.py:275-282 | 404 for a missing or closed class; 403 and no change for a tutor who did not create it; otherwise the record stays, is marked inactive and leaves the active listing |
| Community.RejoinAfterRemoval | community/views.py:91-192 | an approved student whom the tutor removes, and who joins again, is answered "already approved" and is still not a participant |
| Community.Store.Destroy | community/views.py:260-263 | the permission check of `PermissionFor("destroy")` runs first: 403 and no change for a caller it refuses, which is every caller that is not a tutor; otherwise the outcome of `CloseActiveClass` |
| ParticipantsTab.FilteredRequests | frontend/src/features/community/components/ParticipantsTab.jsx:54-57 | `all` keeps every request; any other filter keeps exactly the requests with that status, every copy of each; the result is an order-keeping subsequence |
| ParticipantsTab.RowFor | frontend/src/features/community/components/ParticipantsTab.jsx:93-109 | a row has Approve/Reject buttons, for its own id, iff its request is pending, and shows its status otherwise |
| ParticipantsTab.RowsFor | frontend/src/features/community/components/ParticipantsTab.jsx:86-112 | one row per shown request, in order |
| ParticipantsTab.ParticipantIds | frontend/src/features/community/components/ParticipantsTab.jsx:124-140 | one Remove target per participant, in order |
| ParticipantsTab.Render | frontend/src/features/community/components/ParticipantsTab.jsx:59-146 | the toolbar and the Remove buttons appear iff the role is tutor; the request panel appears iff it is open and the role is tutor, with one row per filtered request |
| ParticipantsTab.SettledFilterHasNoButtons | frontend/src/features/community/components/ParticipantsTab.jsx:86-109 | under an `approved` or `rejected` filter the open panel shows only that status and no buttons |
| ParticipantsTab.ButtonsOnlyForPending | frontend/src/features/community/components/ParticipantsTab.jsx:93-108 | every Approve/Reject pair on screen belongs to a pending request that was fetched |
| ParticipantsTab.Panel.constructor | frontend/src/features/community/components/ParticipantsTab.jsx:14-16 | the panel starts hidden, with no requests, filtered to `pending` |
| ParticipantsTab.Panel.LoadRequests | frontend/src/features/community/components/ParticipantsTab.jsx:22-29 | one fetch is issued and the requests follow `AfterLoad` |
| ParticipantsTab.Panel.Toggle | frontend/src/features/community/components/ParticipantsTab.jsx:18-20 | the toggle flips the panel, and the requests load only when it is now open |
| ParticipantsTab.Panel.SetFilter | frontend/src/features/community/components/ParticipantsTab.jsx:18-20 | a new filter value reloads only while the panel is open; the same value does nothing more |
| ParticipantsTab.Panel.HandleRespond | frontend/src/features/community/components/ParticipantsTab.jsx:31-41 | one respond call; on success the requests reload, then the page; on failure the alert "Operation failed" |
| ParticipantsTab.Panel.HandleRemove | frontend/src/features/community/components/ParticipantsTab.jsx:43-52 | no call when the confirmation is declined; otherwise one remove call, then a page reload or the alert "Failed to remove participant" |
| LiveClassesPage.JitsiLink | frontend/src/components/LiveClasses/LiveClassesPage.jsx:34-35 | the room address is `https://meet.jit.si/SkillForge_Live_` and then the timestamp in decimal, without leading zeros |
| LiveClassesPage.JitsiLinkDetermined | frontend/src/components/LiveClasses/LiveClassesPage.jsx:34-35 | the prefix and a decimal suffix denoting the timestamp fix the address completely |
| LiveClassesPage.JitsiLinkInjective | frontend/src/components/LiveClasses/LiveClassesPage.jsx:34-35 | different timestamps give different rooms |
| LiveClassesPage.PayloadFor | frontend/src/components/LiveClasses/LiveClassesPage.jsx:37 | the payload carries exactly the title, the topic and the room address: the prefix, then the timestamp in decimal without leading zeros |
| Fetch.AfterLoad | frontend/src/components/LiveClasses/LiveClassesPage.jsx:19-22 | after a list request the list is the response, empty when it is null, and unchanged on error (`loadRequests` in the participants tab does the same) |
| LiveClassesPage.Render | frontend/src/components/LiveClasses/LiveClassesPage.jsx:49-116 | the Create button appears iff the role is tutor; the form appears iff it is open, showing the typed title and topic; one card per class; the overlay shows the open class |
| LiveClassesPage.Page.View | frontend/src/components/LiveClasses/LiveClassesPage.jsx:53-60 | on a page whose viewer is not a tutor, neither the Create button nor the form is shown |
| LiveClassesPage.Page.constructor | frontend/src/components/LiveClasses/LiveClassesPage.jsx:8-13 | the page starts with no classes, the form closed and empty, and no class open; only a tutor's page can ever have the form open |
| LiveClassesPage.Page.Load | frontend/src/components/LiveClasses/LiveClassesPage.jsx:16-26 | one fetch is issued; the classes follow `AfterLoad`; loading is false after either outcome |
| LiveClassesPage.Page.OpenCreate | frontend/src/components/LiveClasses/LiveClassesPage.jsx:54 | the handler runs only from the Create button, which only a tutor sees; the form opens and nothing else changes |
| LiveClassesPage.Page.Cancel | frontend/src/components/LiveClasses/LiveClassesPage.jsx:77 | the form closes and keeps the title and topic |
| LiveClassesPage.Page.EditTitle | frontend/src/components/LiveClasses/LiveClassesPage.jsx:67 | typing replaces the title |
| LiveClassesPage.Page.EditTopic | frontend/src/components/LiveClasses/LiveClassesPage.jsx:73 | typing replaces the topic |
| LiveClassesPage.Page.HandleCreate | frontend/src/components/LiveClasses/LiveClassesPage.jsx:32-47 | an empty title only alerts "Title required"; otherwise one create call with the payload; on success the form closes, is cleared and the list reloads; on failure an alert and the form is kept as it was |
| LiveClassesPage.Page.JoinClass | frontend/src/components/LiveClasses/LiveClassesPage.jsx:98 | "Join Class" opens that class in the overlay |
| LiveClassesPage.Page.CloseClass | frontend/src/components/LiveClasses/LiveClassesPage.jsx:109-111 | closing the overlay clears the open class |

## Left out

- Socket, HTTP and ORM I/O are not modelled:
  - opening and closing the WebSocket and the `onopen`/`onerror`/`onclose` logging;
  - the axios wrappers in `frontend/src/lib/api/`;
  - the Django ORM.
  Each call is an effect in a log or a state change of `Store`, and its outcome is a parameter.
- JSON is not modelled. Inbound frames arrive already parsed, with `Malformed` standing for a parse failure; outbound frames are records. The server's replies drop their JSON key (`error`, `message` or `status`): a `Response` keeps only the HTTP status and the text.
- `Date.now()` is a parameter; nothing is assumed about the clock moving forward.
- `alert`, `confirm` and `console` are not modelled. Alerts go to a notice log, the answer to `confirm` is a boolean, and console output is dropped.
- React rendering is abstracted. Only the controls the tab and the page show are modelled, not the markup, the Jitsi iframe or the date formatting. Page reloads are effects.
- ChatClient.ChatSession.Unmount: the model does not stop the frame handler after unmounting. The code relies on the closed socket delivering no more frames.
- JsString.Lower: only ASCII letters are lower-cased. Denylist terms and inputs outside ASCII are not case-folded as JavaScript would do.
- Routing.MatchRoute: `\w` is ASCII `[A-Za-z0-9_]` and `\d` is ASCII `[0-9]` (Python 3 also accepts other Unicode letters and digits there), `$` matches only at the end of the path (not before a final newline), and matching uses the unanchored-search semantics of `re.search`. Django versions that match endpoint patterns in full would not accept leading text before `ws/notifications/`.
- The Channels router strips every leading `/` before matching (`path.lstrip("/")`), but that code is not part of this model. `Routing.RouterPath` stands for it, and the end-to-end lemmas apply it.
- A base ending in `/` gives a request target that starts with `//`. Some servers read such a target as an authority. How the server parses the request target is not modelled: the model follows a server that passes the path on as written.
- ChatClient.ChannelPath: the browser's URL parser is modelled only for a `LiteralBase`. For any other base, the request the browser makes is not modelled. This covers:
  - an empty host;
  - `?` or `#` after `scheme://` (`#` makes `new WebSocket` throw);
  - `\`, which the parser reads as `/`;
  - `.` and `..` segments, which it resolves;
  - percent escapes;
  - other characters it escapes.
  Host-name validity and the port range are not checked either; a host or port the browser rejects makes `new WebSocket` throw. The end-to-end lemmas `Routing.ChannelUrlReachesLiveClass` and `Routing.BasePathMissesLiveClass` require `LiteralBase`.
- ChatClient.ChannelPathShape: it states the literal reading of the URL. It is the browser's request path only for a `LiteralBase`; for example, `http://host?v=1` requests `/`.
- ChatClient.ChannelPathIff: it states the literal reading, as `ChannelPathShape` does. For a base outside `LiteralBase`, such as `http://host?v=1`, a host without `/` does not mean that the browser requests `/ws/live-class/<id>/`.
- The consumers the routes dispatch to are not part of this model.
- Community.Store.Join:
  - `add_participant` is a possible `ValueError`, and any capacity rule inside it is not modelled;
  - the e-mail to the tutor (a Celery task) is not modelled;
  - the serializer's verdict on the body is a parameter, and its error report is an opaque string.
- Community.Store.Exit: `exit_participant` is defined in `models.py`, which is not part of this model. The model assumes that, unless it raises `ValueError`, it removes exactly that user from the participants and leaves join requests and everything else alone.
- The handlers other than the two list views take an authenticated account; anonymous callers of the other views are not modelled.
- Community.Store.Respond, Community.Store.RemoveParticipant and Community.Store.Exit state only the status of a 404 from `get_object_or_404`. Its body text belongs to the framework.
- Community.Store.Destroy: the `IsTutor` permission class is not part of this model and is a boolean parameter. The 403 body is the framework's default permission-denied text, on the assumption that `IsTutor` sets no custom `message`.
- The `create`, `retrieve`, `update` and `partial_update` actions of the live-class viewset are not modelled. `partial_update` sets a notification field on a live class and has no meaningful effect.
- Community creation, chat history and notification listing are not modelled.
- The join and close navigation of `LiveClassesButton.jsx` is not modelled.
- ParticipantsTab.Panel and LiveClassesPage.Page: each handler runs to completion as one step. The interleaving of concurrent `await`s and the intermediate `loading = true` render are not modelled.
