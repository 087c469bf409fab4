# Ignite Curiosity: lesson sessions, validation rules and the lesson driver

Ignite Curiosity is a classroom chat. A teacher picks a lesson, the server opens a *session* for
it, and an AI facilitator ("המנחה") and simulated children post messages step by step through the
lesson's script. The parts modelled here are:

- **The server's data.** The MongoDB collections are one `Database.Db` object. It holds three maps
  keyed by ObjectId: sessions, lessons and children. The Mongoose schemas become predicates on the
  stored documents (`ChatSessionModel`, `LessonModel`, `ChildModel`), and the documents the
  schemas build take their defaults.
- **The REST routes.** These are `SessionRoutes`, `LessonRoutes`, `ChildRoutes` and `AuthRoute`.
  Each handler is a function or method over the `Db`. Its express-validator chain is a function
  listing the error messages. First the validation gate runs (400), then the casts and lookups
  (500 for an id Mongoose cannot cast, 404 for a missing document), and then the store write.
- **The Socket.IO relay** (`SocketRelay.Relay`). It holds the room registry, each socket's
  `socket.data`, and an outbox of deliveries, each addressed to a set of sockets.
- **The React client.** `IndexPage.Page` is the three-view page. `LessonSelector` renders the
  lesson-picker cards. `LessonInterface.LessonDriver` is the lesson screen. Its handlers call the
  session routes on the same `Db` and keep the session the server returned. What they emit on
  the socket goes through a `Relay` that shares that `Db`, so its handlers write the same store.

The TypeScript and JavaScript twins of the ChatSession and Child models declare the same
constraints, so each is modelled once. The table cites both files.

Things the environment decides are parameters:
- `now` (the clock);
- `freshId` (the ObjectId MongoDB assigns);
- `msgId` (`msg-${Date.now()}-${Math.random()}`);
- `LessonInterface.Stamps`: for one `addMessage`, the id and time the REST route gives the
  message, and the id and time the socket handler gives its echo;
- `roll` and `pick` (the `Math.random()` choices in the lesson screen);
- `isUrl` (validator's `isURL`);
- `nullSpeakerPasses`: whether `optional().isString()` lets an explicit `currentSpeaker: null`
  through. That is a detail of the validator library, so the model does not decide it.

An ObjectId is taken here as a string of 24 hex digits, compared as it is spelled (Mongoose reads
the digits regardless of case; see "## Left out"). The validator's `isMongoId` also admits a
`0x`/`0h` prefix. Such an id passes validation and then makes the query throw, which gives a 500. This is modelled and
shown by `Database.MongoIdNotAlwaysObjectId`.

The socket handlers call `findByIdAndUpdate` without `runValidators`, so nothing they store is
validated:
- a negative or unbounded step is stored as given;
- a message is pushed unchecked, and its `content` untrimmed; only the schema's `trim` setter
  on `senderName` still applies.

Consequences the proofs make explicit:
- **Every message is logged twice.** The lesson screen posts each message over REST and then
  echoes it on the socket. The socket's `send-message` handler pushes the echo into the session
  too (`LessonInterface.EchoLoggedTwice`). The start of a lesson thus stores the greeting, its
  echo, the first prompt and its echo (`LessonInterface.StartedLogs`). The screen's copy, which
  is the last REST reply, lacks only the echoes pushed after it (`LessonInterface.LessonDriver.Valid`).
- **The lesson never ends from its own buttons.** The next-step buttons are enabled exactly when
  another step follows (`LessonInterface.NextEnabledIffAnotherStep`), so the farewell branch of
  `moveToNextStep` cannot be reached from them.
- **A step of -2 or less blocks the next step.** A stored step of -2 or less, which only the
  socket can store, makes the next-step update fail with 400, and then nothing changes. A stored
  -1 moves the lesson to step 0.
- **A long prompt is dropped.** A step prompt longer than 1000 characters once trimmed is refused
  by the message route (`LessonInterface.LongPromptRefused`). The bound is checked after trimming,
  so whitespace around a prompt does not count (`LessonInterface.PaddedLongPromptAccepted`).

## Model

| member | source | states |
|---|---|---|
| Wrappers.Status | server/src/routes/sessions.js:10-16 | the status code of a reply; it is 2xx exactly for success |
| Request.HandleValidationErrors | server/src/routes/sessions.js:10-16 | no reply exactly when no rule failed; otherwise 400 with the error list |
| Request.Check | server/src/routes/sessions.js:99-101 | one rule adds no error exactly when it holds |
| Text.TrimSpec | server/src/routes/sessions.js:134-136 | the `trim()` sanitizer: result no longer than the input, no surrounding whitespace, empty exactly for a blank input, unpadded input unchanged |
| Text.TrimIdempotent | server/src/models/ChatSession.js:12-16 | the schema's `trim: true` does not change a value the sanitizer already trimmed |
| Text.TrimmedLength | server/src/routes/sessions.js:134 | the length `isLength` checks after trimming is zero exactly for a blank string |
| Text.StrLeTotal | server/src/routes/children.js:19 | the name order is total |
| Text.StrLeTransitive | server/src/routes/children.js:19 | the name order is transitive |
| Text.StrLeAntisymmetric | server/src/routes/children.js:19 | the name order is antisymmetric |
| Sorting.SortBy | server/src/routes/lessons.ts:22 | `.sort()` gives a sorted permutation of the matched documents |
| Sorting.Enumerate | server/src/routes/lessons.ts:20 | `find()` returns each matched document once |
| ChatSessionModel.CastMessage | server/src/models/ChatSession.ts:36-40 | casting a message trims `senderName` and leaves every other field alone |
| ChatSessionModel.NewSession | server/src/models/ChatSession.ts:60-86 | a session built with the defaults: empty log, step 0, no speaker, active, started now, no end time |
| ChatSessionModel.NewSessionSchemaValid | server/src/models/ChatSession.js:36-62 | a fresh session with a lesson id satisfies the schema |
| ChatSessionModel.AppendKeepsSchema | server/src/models/ChatSession.js:3-34 | appending a schema-valid message keeps a valid session valid |
| ChatSessionModel.CastMessageKeepsValid | server/src/models/ChatSession.ts:28-58 | casting a valid message with a trimmed sender name changes nothing |
| LessonModel.CastStep | server/src/models/Lesson.ts:30-34 | casting a step trims its title only |
| LessonModel.CastSteps | server/src/models/Lesson.ts:76 | every step is cast, in order |
| LessonModel.NewLesson | server/src/models/Lesson.ts:53-84 | a lesson built with the defaults: active, stamped now, title and subject trimmed |
| ChildModel.TrimAll | server/src/models/Child.ts:35-38 | every preference is trimmed |
| ChildModel.NewChild | server/src/models/Child.js:3-27 | a child built with the defaults: trimmed name, the placeholder avatar when none is given, no preferences when none are given |
| Database.ObjectIdIsMongoId | server/src/routes/sessions.js:35 | every ObjectId passes `isMongoId` |
| Database.MongoIdNotAlwaysObjectId | server/src/routes/sessions.js:35-38 | some `isMongoId` strings cannot be cast to an ObjectId |
| Database.CastObjectId | server/src/models/ChatSession.ts:87-90 | the ObjectId cast succeeds on a string exactly when it is 24 hex digits, and yields only such ids |
| Database.CastIds | server/src/routes/sessions.js:69 | an `$in` list casts exactly when every item casts, item by item |
| Database.FoundAllIff | server/src/routes/sessions.js:68-72 | as many documents are found as were requested exactly when the ids are distinct and all stored |
| Database.CheckParticipants | server/src/routes/lessons.ts:63-68 | the participant check: an empty list passes; an item that is neither `null` nor castable gives 500; otherwise it passes exactly when the items cast to distinct stored children, and a `null` item gives 400 |
| Database.NullParticipantMissing | server/src/routes/sessions.js:68-73 | a `null` participant among castable ones answers 400, not 500 |
| Database.Db.StoreSession | server/src/routes/sessions.js:151-155 | a session write keeps every key an ObjectId and changes that one entry |
| Database.Db.StoreLesson | server/src/routes/lessons.ts:79 | a lesson write keeps every key an ObjectId and changes that one entry |
| Database.Db.StoreChild | server/src/routes/children.js:55 | a child write keeps every key an ObjectId and changes that one entry |
| SessionRoutes.IdErrors | server/src/routes/sessions.js:35 | the id rule fails exactly when the id is not a Mongo id |
| SessionRoutes.CreateErrors | server/src/routes/sessions.js:54-57 | POST / validates exactly a Mongo-id lesson id and an array (or absent) participants field |
| SessionRoutes.PostSession | server/src/routes/sessions.js:54-94 | 400 on validation failure; 500 on an uncastable id; 404 on a missing lesson; 400 when participants are missing or repeated; otherwise 201 and a new session with the defaults stored under the fresh id. The store is unchanged on failure |
| SessionRoutes.CreatedParticipantsExist | server/src/routes/sessions.js:68-73 | a created session's participants are distinct stored children |
| SessionRoutes.GetSession | server/src/routes/sessions.js:34-51 | the stored session, or 400, 500 or 404 |
| SessionRoutes.UpdateErrors | server/src/routes/sessions.js:97-102 | PUT validates exactly a Mongo id, a step that is an int ≥ 0, a string speaker and a boolean flag, each optional |
| SessionRoutes.Patched | server/src/routes/sessions.js:104-115 | only the fields present change; `isActive: false` stamps `endTime` with now; everything else is unchanged |
| SessionRoutes.PutSession | server/src/routes/sessions.js:97-128 | on a validation failure, an uncastable id or a missing id: the matching error and no store change; otherwise the patched session is stored and returned |
| SessionRoutes.EndTimeRestamped | server/src/routes/sessions.js:107-109 | ending twice overwrites `endTime`: it is not idempotent |
| SessionRoutes.PatchedKeepsSchema | server/src/routes/sessions.js:111-115 | a validated update keeps a schema-valid session valid |
| SessionRoutes.MessageErrors | server/src/routes/sessions.js:131-137 | the message validation chain reports nothing exactly for an admissible body |
| SessionRoutes.BuildMessage | server/src/routes/sessions.js:139-149 | the built message carries the fresh id, the clock, the trimmed name and content, and the body's reactions or none |
| SessionRoutes.PostMessage | server/src/routes/sessions.js:131-168 | the log grows by exactly the built message at its end; validation failure, an uncastable id or a missing session leave the store unchanged |
| SessionRoutes.ValidatedMessageSchema | server/src/routes/sessions.js:133 | a validated message meets the message schema exactly when its sender id is non-empty |
| SessionRoutes.EmptySenderIdPasses | server/src/routes/sessions.js:133 | an empty sender id passes `isString` |
| SessionRoutes.EmptySenderIdStored | server/src/routes/sessions.js:151-155 | the empty sender id is stored although the schema's `required` refuses it |
| SessionRoutes.DeleteSession | server/src/routes/sessions.js:171-186 | a delete removes exactly that id; every failure leaves the store unchanged |
| LessonRoutes.NewerFirstIsPreorder | server/src/routes/lessons.ts:22 | newest-first is a total preorder |
| LessonRoutes.ListLessons | server/src/routes/lessons.ts:18-29 | the listing holds every active lesson once, newest first |
| LessonRoutes.ListedIffActive | server/src/routes/lessons.ts:20 | a lesson is listed exactly when it is stored and active |
| LessonRoutes.CreateErrors | server/src/routes/lessons.ts:51-58 | the create chain reports nothing exactly when the body is admissible |
| LessonRoutes.BuiltLessonValidIffSteps | server/src/routes/lessons.ts:70-79 | after validation, saving can fail only on a step |
| LessonRoutes.CreatedIff | server/src/routes/lessons.ts:51-87 | 201 exactly when the body is valid, the participants exist once each and the steps satisfy the schema |
| LessonRoutes.CreatedLesson | server/src/routes/lessons.ts:60-82 | the created lesson is active, stamped now, trimmed, schema-valid and carries the cast participant ids |
| LessonRoutes.CreateRejections | server/src/routes/lessons.ts:63-68 | validation errors come first; missing participants answer 400 and uncastable ones 500 |
| LessonRoutes.PostLesson | server/src/routes/lessons.ts:51-87 | answers the create reply and stores the lesson only when it is created |
| LessonRoutes.UpdateErrors | server/src/routes/lessons.ts:90-97 | the update chain reports nothing exactly for a Mongo id and an admissible body |
| LessonRoutes.Updated | server/src/routes/lessons.ts:99-113 | the given fields replace the stored ones, the unchecked `isActive` and `steps` too; participants change only when a new list is given; the creation stamp is kept |
| LessonRoutes.ObjectStepWrapped | server/src/routes/lessons.ts:98-113 | a single step object given as `steps` replaces the stored steps by a one-step list |
| LessonRoutes.UpdatedKeepsSchema | server/src/routes/lessons.ts:110-114 | a validated update with admissible steps keeps a valid lesson valid |
| LessonRoutes.PutLesson | server/src/routes/lessons.ts:90-125 | a non-empty participant list is checked and replaces the stored one, an empty list is ignored; an `isActive` or a `steps` Mongoose cannot cast gives 500, and so do steps the schema refuses; 404 on a missing id; every failure leaves the store unchanged |
| LessonRoutes.DeleteLesson | server/src/routes/lessons.ts:128-147 | a soft delete: the lesson stays stored with `isActive` false; the key set never changes |
| LessonRoutes.DeletedNotListed | server/src/routes/lessons.ts:132-136 | a soft-deleted lesson is still stored but no longer listed |
| ChildRoutes.ByNameIsPreorder | server/src/routes/children.js:19 | the name order is a total preorder |
| ChildRoutes.ListChildren | server/src/routes/children.js:17-25 | the listing holds every child once, ascending by name |
| ChildRoutes.ListedIffStored | server/src/routes/children.js:19 | a child is listed exactly when it is stored under that id |
| ChildRoutes.CreateErrors | server/src/routes/children.js:46-52 | the create chain reports nothing exactly when the body is admissible |
| ChildRoutes.CastPreferences | server/src/models/Child.js:24-27 | the preference array casts exactly when every item is a string |
| ChildRoutes.CreatedChild | server/src/routes/children.js:54-56 | a created child is schema-valid, trimmed and has the placeholder avatar by default |
| ChildRoutes.CreatedIff | server/src/routes/children.js:46-61 | 201 exactly for an admissible body whose preferences are all strings |
| ChildRoutes.PostChild | server/src/routes/children.js:46-61 | answers the create reply and stores the child only when it is created |
| ChildRoutes.UpdateErrors | server/src/routes/children.js:64-71 | the update chain reports nothing exactly for a Mongo id and an admissible body |
| ChildRoutes.Updated | server/src/routes/children.js:73-77 | each supplied field replaces the stored one and nothing else changes |
| ChildRoutes.UpdatedKeepsSchema | server/src/routes/children.js:73-77 | a validated update keeps a valid child valid |
| ChildRoutes.PutChild | server/src/routes/children.js:64-88 | 400, 500 or 404 with no change; otherwise the updated child stored in place |
| ChildRoutes.DeleteChild | server/src/routes/children.js:91-106 | a hard delete removes exactly that id; every failure leaves the store unchanged |
| ChildRoutes.DeletedNotListed | server/src/routes/children.js:95 | a deleted child is not listed |
| AuthRoute.LoginErrors | server/src/routes/auth.ts:16-18 | 400 exactly for a blank username after trimming or an empty password |
| AuthRoute.PostLogin | server/src/routes/auth.ts:16-41 | the login answers 200, 400 or 401 only |
| AuthRoute.LoginSucceedsIff | server/src/routes/auth.ts:24-33 | success exactly for the trimmed username `teacher` and password `demo123`, always with the fixed user and token |
| AuthRoute.LoginRejections | server/src/routes/auth.ts:34-35 | any other valid-looking credentials give 401 |
| AuthRoute.PaddedUsernameLogsIn | server/src/routes/auth.ts:17 | surrounding whitespace on the username is forgiven |
| SocketRelay.Locate | server/src/sockets/index.js:12 | a session lookup is a cast error, a miss or the stored session |
| SocketRelay.Relay.Members | server/src/sockets/index.js:26 | a room's members are connected sockets |
| SocketRelay.Relay.constructor | server/src/sockets/index.js:3 | no sockets, rooms, bindings or deliveries yet |
| SocketRelay.Relay.Connect | server/src/sockets/index.js:3-4 | a connection adds the socket and nothing else |
| SocketRelay.Relay.Reply | server/src/sockets/index.js:14 | an answer reaches the sending socket only |
| SocketRelay.Relay.JoinLesson | server/src/sockets/index.js:7-38 | on a missing session: an error to the joiner only, nothing else changes. Otherwise the socket joins the room and binds session and user; the others hear `user-joined` and the joiner gets `session-state` |
| SocketRelay.Relay.SendMessage | server/src/sockets/index.js:41-74 | appends exactly one cast message with no reactions and broadcasts it to the whole room; on a missing session only an error to the sender |
| SocketRelay.Relay.ChangeStep | server/src/sockets/index.js:77-99 | stores the step unchecked and broadcasts it; on a missing session only an error to the sender |
| SocketRelay.Relay.ChangeSpeaker | server/src/sockets/index.js:102-124 | stores the speaker (or none) and broadcasts it; on a missing session only an error to the sender |
| SocketRelay.Relay.Disconnect | server/src/sockets/index.js:127-137 | the socket leaves every room and its binding; the rest of its room hears `user-left` exactly when it had bound a session and a truthy user id |
| LessonSelector.SumMinutesBounds | client/src/components/LessonSelector.jsx:78 | for durations the schema admits, the sum lies between n and 120·n |
| LessonSelector.TotalMinutesOfAdmittedSteps | client/src/components/LessonSelector.jsx:78 | the card shows the real sum for admitted steps, and 30 exactly for a lesson without steps |
| LessonSelector.DefaultDurations | client/src/components/LessonSelector.jsx:78 | steps without durations count five minutes each |
| LessonSelector.Numbered | client/src/components/LessonSelector.jsx:87-93 | the preview lines carry consecutive numbers and the step titles, in order |
| LessonSelector.Preview | client/src/components/LessonSelector.jsx:87-90 | exactly the first min(3, n) steps, numbered from 1 |
| LessonSelector.MoreNote | client/src/components/LessonSelector.jsx:95-98 | the "n more" note appears exactly when n > 3 and counts a positive number |
| LessonSelector.PreviewAndNoteCoverSteps | client/src/components/LessonSelector.jsx:87-98 | the preview and the note account for every step exactly once |
| LessonSelector.ParticipantCount | client/src/components/LessonSelector.jsx:73 | the list length, or 0 when it is absent |
| LessonSelector.LessonCard | client/src/components/LessonSelector.jsx:46-111 | a card's title, count, minutes, a preview only for lessons with steps, and the note only beyond three steps; the card's description, subject and age are markup and are left out |
| LessonSelector.Render | client/src/components/LessonSelector.jsx:6-46 | the empty state exactly for a missing or empty list; otherwise one card per lesson, in order |
| LessonInterface.NextEnabledIffAnotherStep | client/src/components/LessonInterface.jsx:282-289 | the next-step buttons are enabled exactly when the session is active and another step follows |
| LessonInterface.Candidates | client/src/components/LessonInterface.jsx:149-151 | exactly the participants who are not the current speaker |
| LessonInterface.Pick | client/src/components/LessonInterface.jsx:146-160 | no child without participants or candidates; otherwise a participant who is not the current speaker |
| LessonInterface.EveryCandidateCanBePicked | client/src/components/LessonInterface.jsx:154 | every candidate is some roll's outcome |
| LessonInterface.SoleSpeakerIsNotPicked | client/src/components/LessonInterface.jsx:146-160 | a sole participant who is already speaking is not picked, while the child button (line 266) stays enabled in an active session, so it does nothing |
| LessonInterface.VisibleLineAccepted | client/src/components/LessonInterface.jsx:52-62 | a line with a visible name and content within 1000 characters passes the message route |
| LessonInterface.FarewellAccepted | client/src/components/LessonInterface.jsx:127-132 | the farewell is always accepted |
| LessonInterface.AIResponseAccepted | client/src/components/LessonInterface.jsx:191-202 | every scripted AI reply is accepted |
| LessonInterface.GreetingAccepted | client/src/components/LessonInterface.jsx:84-89 | the greeting is accepted for every title the lesson schema admits |
| LessonInterface.ChildReplyAcceptedIff | client/src/components/LessonInterface.jsx:168-178 | a simulated reply is accepted exactly when the child's name is not blank |
| LessonInterface.LongPromptRefused | client/src/components/LessonInterface.jsx:112-116 | a prompt longer than 1000 characters once trimmed is refused: the step advances without it |
| LessonInterface.PaddedLongPromptAccepted | server/src/routes/sessions.js:136 | the length bound is checked after `trim()`: 1000 letters and a trailing space are accepted |
| LessonInterface.PostKeepsLag | client/src/hooks/useAPI.js:113-122 | a post keeps the screen's copy behind the store only by log entries, and an accepted one leaves exactly its echo between them |
| LessonInterface.PostThenEcho | client/src/components/LessonInterface.jsx:61-68 | `addMessage` is the route's reply followed by the echo's entry; a refused body changes nothing |
| LessonInterface.EchoLoggedTwice | client/src/components/LessonInterface.jsx:61-68 | a posted message and its socket echo both land in the log, with the same sender and the same trimmed content |
| LessonInterface.StartedLogs | client/src/components/LessonInterface.jsx:84-96 | starting on an empty log stores the greeting, its echo, the prompt and its echo; the screen shows all but the last |
| LessonInterface.StepUpdate | client/src/components/LessonInterface.jsx:109 | an update to a step ≥ 0 moves the session to exactly that step |
| LessonInterface.SpeakerUpdate | client/src/components/LessonInterface.jsx:155 | an update to a child id makes that child the speaker |
| LessonInterface.NullSpeakerUpdate | client/src/components/LessonInterface.jsx:182 | resetting the speaker to `null` clears it exactly when the validator admits `null` |
| LessonInterface.EndUpdate | client/src/components/LessonInterface.jsx:140 | `isActive: false` ends the session and stamps its end |
| LessonInterface.LessonDriver.constructor | client/src/components/LessonInterface.jsx:14-17 | no session loaded, the AI flag down, a socket connected to a relay on the routes' store |
| LessonInterface.LessonDriver.Join | client/src/components/LessonInterface.jsx:31-35 | the socket joins the session's room as `teacher-user`, the rest of the room hears it and the socket gets the session's state; an unknown session gives the socket an error |
| LessonInterface.LessonDriver.Load | client/src/hooks/useAPI.js:93-111 | the local copy becomes the stored session when it is found |
| LessonInterface.LessonDriver.AddMessage | client/src/components/LessonInterface.jsx:52-77 | an accepted message is stored with its echo after it, the copy becomes the route's reply and the room hears the echo; a refused one changes nothing |
| LessonInterface.LessonDriver.Post | client/src/hooks/useAPI.js:113-122 | the route's verdict; on acceptance the copy and the store both become the session with the message appended |
| LessonInterface.LessonDriver.EchoMessage | client/src/components/LessonInterface.jsx:65-68 | the echo's entry is appended to the stored log and `new-message` goes to the whole room |
| LessonInterface.LessonDriver.UpdateSession | client/src/hooks/useAPI.js:124-133 | the store holds the updated session, and the local copy becomes it when the update is accepted |
| LessonInterface.LessonDriver.StartLesson | client/src/components/LessonInterface.jsx:80-100 | on an empty log: the greeting with its echo, then the first step's prompt with its echo only when there are steps; otherwise nothing |
| LessonInterface.LessonDriver.MoveToNextStep | client/src/components/LessonInterface.jsx:103-143 | a no-op without session or steps. Before the last step: exactly the next step, its echo and its prompt with the prompt's echo. At the last step: the step kept, the farewell with its echo, the session ended |
| LessonInterface.LessonDriver.AdvanceTo | client/src/components/LessonInterface.jsx:107-116 | the step moves, is echoed and its prompt posted and echoed; a refused step changes nothing |
| LessonInterface.LessonDriver.StepTo | client/src/components/LessonInterface.jsx:109-110 | a step ≥ 0 is stored, shown and announced to the room; a negative one changes nothing |
| LessonInterface.LessonDriver.EndWithFarewell | client/src/components/LessonInterface.jsx:125-141 | the farewell and its echo are stored, then the session is ended and stamped, and the copy is the ended session |
| LessonInterface.LessonDriver.SelectRandomChild | client/src/components/LessonInterface.jsx:146-160 | the chosen child is never the current speaker and becomes the speaker, announced to the room; no choice changes nothing |
| LessonInterface.LessonDriver.SimulateChildResponse | client/src/components/LessonInterface.jsx:163-185 | a chosen child posts a scripted reply with its echo, then the speaker is reset when the validator admits `null` |
| LessonInterface.LessonDriver.ReplyAs | client/src/components/LessonInterface.jsx:177-184 | the reply and its echo, then the `null` speaker reset, whose reply holds the echo |
| LessonInterface.LessonDriver.BeginAIResponse | client/src/components/LessonInterface.jsx:189 | the AI flag is raised, so the AI button (line 274) is disabled |
| LessonInterface.LessonDriver.FinishAIResponse | client/src/components/LessonInterface.jsx:201-204 | a scripted reply and its echo are posted and the flag is lowered, so the AI button (line 274) is enabled again exactly while the session is active |
| IndexPage.Render | client/src/pages/Index.jsx:72-108 | the spinner while loading; the lesson screen exactly for view `lesson` with a lesson and a session id; the welcome screen exactly for view `welcome` with a lesson; otherwise the selector |
| IndexPage.CoherentRendersView | client/src/pages/Index.jsx:83-101 | in a coherent state each view renders its own screen, never the fallback |
| IndexPage.RosterCarriedOver | client/src/pages/Index.jsx:38-41 | a lesson whose participants are distinct stored children starts a session with exactly that roster |
| IndexPage.Page.constructor | client/src/pages/Index.jsx:9-11 | the picker, with no lesson and no session id |
| IndexPage.Page.SelectLesson | client/src/pages/Index.jsx:25-28 | the welcome view with the chosen lesson |
| IndexPage.Page.StartLesson | client/src/pages/Index.jsx:30-59 | the lesson view with the new session's id exactly when the server created it; otherwise the view, the id and the store are unchanged |
| IndexPage.Page.EndLesson | client/src/pages/Index.jsx:61-65 | the picker, with lesson and session id cleared |
| IndexPage.Page.BackToSelector | client/src/pages/Index.jsx:67-70 | the picker, with the lesson cleared and the session id kept |

## Left out

- GET `/api/lessons/:id` and GET `/api/children/:id` are not modelled. They are plain lookups, with the same shape as `SessionRoutes.GetSession`.
- GET `/api/sessions` (list all sessions) is not modelled. It is a plain listing with `populate`.
- `populate` is not modelled: the client works on `LessonView`, a lesson with its children already populated.
- POST `/api/auth/logout` is not modelled. It answers a constant message.
- Fields of a session PUT body that no rule checks (`messages`, `participants`, `lessonId` and others) are not modelled. `SessionRoutes.SessionPatch` holds only the validated fields.
- LessonRoutes.Updated: of the lesson PUT body's unchecked fields, `isActive` and `steps` are modelled. A `steps` array replaces the stored steps, a single step object becomes a one-step list, and a string or number fails the cast. `_id` in the body is not modelled, and neither is `createdAt`, which the `timestamps` option keeps immutable.
- LessonRoutes.PutLesson: `isActive` casts only from a Boolean here. Mongoose's Boolean cast also takes `"true"`, `1`, `"yes"` and similar, and `null`; these are 500 in the model.
- LessonRoutes.PutLesson: a `null` `steps` is not modelled. `StepsValue` has no null case, so the model cannot express what Mongoose does with it.
- Numeric strings are not modelled: `isInt` and `isBoolean` accept `"3"` and `"true"`, and Mongoose coerces them. Such values count as rejected here.
- ChildRoutes.CastPreferences: a preference array containing non-strings is modelled as a cast failure (500). Mongoose's coercion of numbers and booleans to strings is not modelled, so this is weaker than the source.
- ChildRoutes.CreatedIff: weaker in the same way; a body with numeric preferences is 500 here.
- ChildRoutes.PutChild: weaker in the same way.
- SessionRoutes.PostMessage: `reactions` is modelled as absent or a list of strings. A `null` list, or a list holding non-strings, which Mongoose would coerce or refuse with 500, cannot be expressed.
- ChildRoutes.PostChild: the child is always stored under `freshId`. `new Child(req.body)` lets an `_id` in the body choose the id, and a duplicate `_id` then fails the save with 500; neither is modelled.
- SessionRoutes.UpdateErrors: every integer from 0 up passes the step rule here. In the source a JSON number of 1e21 or more turns into exponent notation when it is made a string, so `isInt` refuses it and the PUT answers 400.
- SocketRelay.Relay.SendMessage: payload fields that are absent are not modelled. The payload always carries four strings.
- `updatedAt` (the `timestamps: true` option) is not modelled, and neither are the indexes.
- BuiltLessonValidIffSteps: lengths are counted in characters, both by the validators and by the schema. In JavaScript, `isLength` counts code points and skips U+FE0E/U+FE0F, while the schema's `maxlength` counts UTF-16 code units. A title of 60 characters outside the Basic Multilingual Plane passes `isLength` and fails `maxlength`, so saving can also fail on the title, which the model does not capture. The same gap holds for every `isLength` and `maxlength` pair.
- Database.CastObjectId: ids are compared as spelled, and the lookups (`GetSession`, `PutSession`, `PutLesson`, `PutChild` and the deletes) use the spelling as the key. Mongoose reads ObjectId hex digits regardless of case, so an upper-case spelling of a stored id is found in the source and is NotFound here, and `Db.Valid` admits two spellings of one id as two documents.
- LessonModel.Step: `duration` is a JavaScript Number, modelled as an integer. The schema checks only its bounds, so a duration such as 2.5 can be stored, and `LessonSelector` would then sum non-integers.
- SocketRelay.Relay.ChangeStep: `newStep` is stored unchecked and is modelled as an integer. A stored 1.5 would make the next `currentStep` PUT fail `isInt`; the model cannot express it.
- `setTimeout` delays, and the interleaving of concurrent handlers, are not modelled. The handlers run one after another, and the lesson screen's delayed calls run in the order they are scheduled.
- Other writers of a session while a lesson screen is open are not modelled. They would break `LessonDriver.Valid`, which says the screen's copy differs from the stored session only by echo entries pushed after the last REST reply.
- `Math.random()` is not modelled: it becomes the `roll` and `pick` parameters.
- Toasts, scrolling and markup are not modelled, the lesson card's description, subject and target age among them.
- After a failed request the lesson screen switches to its error screen; this is not modelled. The driver keeps going.
- The lesson screen's loading screen and its current-step badge are not modelled.
- The welcome screen component is not part of this model, apart from the two handlers it is given.
- The axios service, the socket service and `useLessons` are not modelled. The driver calls the routes directly.
- The socket listeners the lesson screen registers are not modelled. Their callbacks do nothing.
- The server bootstrap (middleware, rate limits, listening) is not modelled.
- The mock data and the type comments are not modelled.
