# LINE chat bot relaying to Gemini: a Dafny model of its dispatcher

This project models the core of a LINE messaging bot that forwards user text
to Google's Gemini chat model. The bot keeps one chat session for each
identity key in a global map. Its webhook callback walks a batch of events
and, for each text event, does one of three things:

- drops the text if it does not start with the sentinel `@#`;
- resets the key's session on a case-insensitive `reset`;
- otherwise forwards the text to the key's session and replies with the model's answer.

The first reply to a key that had no session is primed with a fixed preamble.
Stickers get a summary reply, and images get a description or a fallback text.
Other events are only logged. A separate helper appends messages to a per-id
log file.

Modules, one per concern of the Go package:

- `Wrappers` (wrappers.dfy): `Option`, `Result` and `StartsWith`, which is `strings.HasPrefix`.
- `Events` (events.dfy), from main.go:
  - the event, source and message variants;
  - `Interpret`, the sentinel and reset test;
  - the identity key;
  - the reply texts (priming, sticker summary, image fallback);
  - the sticker keyword loop.
- `Gemini` (gemini.dfy), from gemini.go:
  - the chat service as a class: a fresh-id counter, the log of every message sent, and the model as an opaque function of a session and its transcript;
  - `send` with its priming and its nil-session fallback;
  - `printResponse` as a nested loop, specified by recursive functions.
- `Dispatcher` (dispatcher.dfy), from main.go:
  - the whole state as `BotState`;
  - one event as `Step`, and a batch as `Run`, which stops where the Go handler `return`s;
  - the handler as the class `Bot`, whose `sessions` map and `outbox` are updated in place; `HandleEvent` and `HandleBatch` are proved to follow `Step` and `Run`.
- `Recorder` (recorder.dfy), from recordmsg.go:
  - the folder choice;
  - Unix `filepath.Join`/`Clean`;
  - the append, as a method on a path-to-contents map.

Go behaviour that the model keeps:

- The `return` statements at main.go:108 and main.go:139 end the whole batch, not just the current event (`StopsBatch`, `StoppingEventEndsBatch`).
- A reset on a key with no entry starts two sessions, and the map keeps the second (`ResetStep`).
- The identity key is the source's `UserId` field for user, group and room sources alike. Any other source gives `""`, which is still used as a map key.
- `strings.EqualFold(req, "reset")` is modelled with Go's simple case folding. The folding includes U+017F (long s) for `s`, so `"reſet"` is a reset.
- `filepath.Join` cleans `..` elements. A user id such as `/../../x` therefore moves the log file out of `conversations/` (`UserIdCanLeaveRoot`).

Where the code's own comments suggest something else, the model follows the code:

- The comment at main.go:114 speaks of the user or group/room ID, but all three source cases (main.go:116-121) read `UserId`. The group and room ids are never used as keys.
- A source of any other kind leaves the key `""` (main.go:114), and that key still gets a session (main.go:125-130).
- The comment at main.go:105 says an unprefixed text gets no processing. The `return` at main.go:108 also ends the rest of the batch.
- recordmsg.go (main.go does not call it) chooses the folder from the user id, then the room id, then the group id (recordmsg.go:14-19).

The source as published does not compile, and the model fixes it as follows:

- `send(cs, req)` (main.go:143) omits `send`'s `firstTime` argument. The value it passes is a parameter of the bot, `sendFirstTime`, taken as a function of "the key had no entry before this event".
- The two-argument calls of `replyText` (main.go:159, main.go:181) are modelled with `firstTime = false`.
- `main` is defined twice. Neither is modelled beyond the recorder demo's three calls.

## Model

| member | source | states |
|---|---|---|
| `Events.Interpret` | main.go:105-131 | text without `@#` is ignored; otherwise exactly one `@#` is stripped (`"@#" + req == text`) and the rest is either reset (iff it folds to `reset`) or content |
| `Events.InterpretExamples` | main.go:105-131 | `hello` ignored; `@#reset`, `@#RESET` and `@#reſet` reset; `@#hi there` is content `hi there`; `@#@#x` is content `@#x` |
| `Events.IsResetOnAscii` | main.go:131 | on ASCII text the reset test is exactly a case-insensitive comparison with `reset` |
| `Events.IdentityKey` | main.go:114-122 | the key is the source's UserId for user, group and room sources alike, and `""` for any other source |
| `Events.ReplyBody` | main.go:59-63 | the reply is the preamble followed by the text when firstTime, the text unchanged otherwise |
| `Events.ReplyPrimedIff` | main.go:59-63 | for a text not itself starting with the preamble, the reply starts with the preamble iff firstTime |
| `Events.JoinKeywords` | main.go:153-156 | the loop's result equals the left-fold specification of `kw = kw + "," + k` |
| `Events.KeywordsTextIsCommaEach` | main.go:153-156 | the accumulated keyword list is every keyword preceded by one comma, in order, and `""` with no keywords |
| `Events.StickerSummary` | main.go:158 | the sticker reply starts with the lead text and holds the sticker id, package id, keyword list and sticker text at the positions the format string puts them, with nothing after the text |
| `Events.ImageReplyText` | main.go:177-180 | the reply is the description, or the fallback text followed by the error |
| `Gemini.PrimedMessage` | gemini.go:63-66 | with firstTime the message sent is the preamble glued to msg with no separator; otherwise msg unchanged |
| `Gemini.SendPrimedIff` | gemini.go:63-66 | for msg not itself starting with the preamble, what is sent starts with it iff firstTime |
| `Gemini.Start` | gemini.go:43-54 | a new session id is distinct from every id used before and nothing is sent |
| `Gemini.SendOn` | gemini.go:57-73 | a nil session is replaced by a freshly started one; exactly one message is sent to the session; the result is the model's answer to that session's transcript ending in this message |
| `Gemini.ChatService.StartNewChatSession` | gemini.go:43-54 | the service's new state and id are those of `Start` |
| `Gemini.ChatService.Send` | gemini.go:57-73 | the service's new state and the response are those of `SendOn` |
| `Gemini.PrintResponse` | gemini.go:76-85 | the nested loop's result equals the specification over candidates and parts |
| `Gemini.ResponseTextIsAllParts` | gemini.go:76-85 | the result is the concatenation of every part's rendering, candidates in order, parts in order, with no separators |
| `Gemini.ResponseTextEmptyIff` | gemini.go:76-85 | the result is empty iff every part renders empty |
| `Gemini.NoPartsNoText` | gemini.go:77-84 | with no candidates, or no parts in any candidate, the result is `""` |
| `Dispatcher.Step` | main.go:97-199 | one pass of the loop body: the handler returns exactly on an unprefixed text or a reset; no key loses its entry; at most one reply is sent, after the earlier ones; the messages sent to the model only grow at the end; session ids stay issued ones |
| `Dispatcher.TextStep` | main.go:102-149 | a text message: the batch ends exactly when the text is not content; an unprefixed text changes nothing; a prefixed one keeps every key, adds the sender's key and appends exactly one reply on the event's token |
| `Dispatcher.UnprefixedTextEndsBatch` | main.go:106-109 | a text without `@#` ends the batch with no reply and no state change |
| `Dispatcher.StoppingEventEndsBatch` | main.go:93-140 | events after an unprefixed text or a reset are never processed, wherever it stands in the batch |
| `Dispatcher.QuietEventContinues` | main.go:185-198 | video, other message kinds, follow, postback, beacon and other events change nothing, and the batch goes on |
| `Dispatcher.Run` | main.go:93-200 | over a batch the session map only gains keys, the earlier replies and messages sent are kept as a prefix, and at most one reply is added per event |
| `Dispatcher.RunConsistent` | main.go:125-135 | every mapped session and every session sent to has been started, after any batch |
| `Dispatcher.ResetStep` | main.go:125-139 | reset: the key's entry becomes a session fresh from every earlier one; other keys are kept; nothing is sent to the model; one greeting is sent, primed iff the key had no entry; with no entry two sessions are started and the second is kept; the batch ends |
| `Dispatcher.ContentStep` | main.go:125-148 | content: an existing session is reused and the map is unchanged, else one new session is inserted; the stripped text is sent to it; the reply is the model's answer, primed iff the key had no entry; the batch goes on |
| `Dispatcher.FirstContactThenRepeat` | main.go:125-148 | two messages from a new key go to one new session; the second answer is the model's reply to exactly those two messages and is sent unprimed |
| `Dispatcher.StickerStep` | main.go:152-161 | a sticker gets its summary as the one reply; sessions and the model are untouched |
| `Dispatcher.ImageStep` | main.go:164-183 | an image gets its description or the fallback with the error; sessions and the model are untouched |
| `Dispatcher.Bot.constructor` | main.go:36 | the bot starts with an empty session map, no sessions started, nothing sent |
| `Dispatcher.Bot.ReplyText` | main.go:59-78 | one reply is appended to the outbox, primed when firstTime; the session map is untouched |
| `Dispatcher.Bot.HandleEvent` | main.go:94-199 | the handler's new state and its return decision are those of `Step` |
| `Dispatcher.Bot.HandleBatch` | main.go:93-200 | the handler's new state is that of `Run` on the batch, and consistency is kept |
| `Recorder.ChosenId` | recordmsg.go:13-20 | a non-empty user id wins; otherwise a non-empty room id; otherwise a non-empty group id; there is none exactly when all three are empty |
| `Recorder.FolderName` | recordmsg.go:13-20 | the folder is `UserID_` + user id when that is non-empty, else `RoomID_` + room id, else `GroupID_` + group id, else `""` |
| `Recorder.Clean` | recordmsg.go:23 | the cleaned path is never empty, and it starts with `/` exactly when the input does |
| `Recorder.Join` | recordmsg.go:23 | the joined path is empty exactly when every element is empty |
| `Recorder.FolderNameRoundTrip` | recordmsg.go:13-20 | the folder name is `UserID_`, `RoomID_` or `GroupID_` followed by the first non-empty id in the order user, room, group, whatever the later ids are; it reads back to that kind and id |
| `Recorder.JoinPlain` | recordmsg.go:23 | joining elements without `/`, `.` or `..` is concatenation with `/` |
| `Recorder.JoinEndsWithPlain` | recordmsg.go:29 | joining any directory with a plain file name gives that name alone or a path ending in `/` and that name |
| `Recorder.MessagesPath` | recordmsg.go:23-29 | whatever the three ids, the file is `messages.txt` itself or a path whose last element is `messages.txt` |
| `Recorder.MessagesPathPlain` | recordmsg.go:13-29 | with a chosen id free of `/`, the file is `conversations/<folder>/messages.txt` |
| `Recorder.MessagesPathNoIds` | recordmsg.go:13-29 | with all ids empty, Join drops the empty folder and the file is `conversations/messages.txt` |
| `Recorder.UserIdCanLeaveRoot` | recordmsg.go:14-29 | a user id `/../../x` puts the file at `x/messages.txt`, outside `conversations` |
| `Recorder.DemoUserPath` | recordmsg.go:50 | the demo's user id 123 writes to `conversations/UserID_123/messages.txt` |
| `Recorder.DemoRoomPath` | recordmsg.go:51 | the demo's room id 456 writes to `conversations/RoomID_456/messages.txt` |
| `Recorder.DemoGroupPath` | recordmsg.go:52 | the demo's group id 789 writes to `conversations/GroupID_789/messages.txt` |
| `Recorder.Appended` | recordmsg.go:30-37 | the file gains the data at its end after its earlier contents, a missing file is created, and every other path is unchanged |
| `Recorder.AppendedTwice` | recordmsg.go:30-37 | two appends leave both lines in order after the earlier contents |
| `Recorder.FileStore.RecordMessage` | recordmsg.go:11-40 | the file system after the call is `Appended` with the chosen path and `message + "\n"` |

## Left out

- HTTP server setup, environment variables, and webhook parsing with signature checks (main.go:38-56, 82-90). These are I/O; the model starts from a decoded batch.
- The LINE reply API (main.go:65-76). A reply is an append to `outbox`, and a failed reply (which is only logged) is not modelled.
- Image fetching and description (main.go:165-180):
  - `blob.GetMessageContent`, `io.ReadAll` and `GeminiImage` are one parameter, `describe`, which maps a message id to a description or an error.
  - The nil dereference after a failed fetch is not modelled. It is a panic.
  - The `log.Fatal` of `io.ReadAll` is not modelled.
  - `GeminiImage` itself calls `log.Fatal` on errors, so in the real program the fallback reply is never reached.
- The Gemini client (gemini.go:12-54):
  - client creation, model names and float32 temperatures are left out;
  - sessions are fresh numbers;
  - the model's answer is an opaque function of the session and its transcript.
- `log.Fatal` paths (gemini.go:20, 36, 47, 70; main.go:175; recordmsg.go:25, 32, 38) are process aborts. The model's service calls and file writes always succeed.
- Logging (`log.Printf` and similar) has no effect in the model.
- Concurrency: `userSessions` is an unsynchronised global shared by concurrent HTTP handlers, but batches are modelled one at a time.
- Strings are sequences of Unicode scalar values, so invalid UTF-8 in a payload is not modelled.
- Directory creation and file permissions (recordmsg.go:24-34) are left out. A path is a map key, so a directory and a file of the same name do not clash.
- `handleMessageEvent` (recordmsg.go:43-46) only calls `RecordMessage`. The demo `main` (recordmsg.go:48-53) appears only through its three paths.
