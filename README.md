# tbot, modelled in Dafny

tbot is a Telegram bot that delivers messages to people by user name. It
keeps one offline queue per user: a text for someone whose chat is unknown,
or whose send fails, is queued. The queues are flushed when the hub starts,
and a user's queue is flushed when that user writes to the bot from a chat
other than the one on record.
The store (`config.go`) holds the users, the name-and-alias index and the
queues. It is loaded from, and saved to, `users.json` and `queues.json`
under a locked data directory.

The repository has two variants of the hub:

- `main.go` is the bot-only hub. It has a command-line sender that posts a
  text to the running hub, or queues it when the hub does not answer. It
  answers `/help`, and runs `<BotBaseDir>/<command>.sh` for any other
  private message. Its HTTP handler accepts messages.
- `server.go` is the distributed hub. It also keeps a registry of agents,
  which announce themselves with `PUT /register/<name>?port=...`. It
  dispatches `/command agent args...` chat messages to that agent's
  `/execute/` endpoint and relays the answer.

An agent (`agent.go`) registers its listening port with the hub, proxies
`/message` requests to the hub, and has the same script executor as
`main.go`, rooted at its own base directory.

The Dafny modules follow that structure:

- `Wrappers` holds Option and Result.
- `GoStrings` and `GoNet` are the parts of Go's `strings`,
  `path/filepath`, `net` and `net/url` that the code relies on.
- `Chat` holds the Telegram message, and a `ChatBot` class whose `Send`
  succeeds or fails as an oracle indexed by call number says. It records
  what it delivered and what it replied.
- `Http` holds requests, responses and `http.Error`.
- `Store` models `config.go`: a `FileSystem` class (documents by file
  name, plus held locks) and the `DataPath` class.
- `Delivery` holds deliver-or-queue, the queue flushes, the per-message
  user bookkeeping and the message handler. `main.go` and `server.go`
  share these.
- `Executor` holds the `execute` function of `main.go` and `agent.go`.
- `MainHub`, `ServerHub` and `Agent` model the three programs.

Go's pointers in `usersMap` are modelled explicitly. `Slot(i)` is
`&users[i]`, the pointer the update loop takes. `Cell(k)` is the
per-iteration copy `&u` that `Load` stores. So the model shows that a chat
ID recorded for a loaded user changes the copy, not the element of `users`
that `Save` writes (`Delivery.ChatLostOnReload`): after a restart such a
user is back on its old chat.

`main.go`'s chat loop and `agent.go` are modelled with the executor as
written (`Executor.ExecuteAsWritten`). `Executor.Execute` is the corrected
executor of the finding below.

## Model

| member | source | states |
|---|---|---|
| Store.SaveLoadRoundTrip | config.go:88-111 | loading the two files just saved reads back the same queues and, when no name is empty, the same users in the same order |
| Store.SaveError | config.go:46-61 | a save fails exactly when creating, encoding, closing or renaming fails |
| Store.SaveFile | config.go:46-61 | on success the file holds the document and the `.new` copy is gone; on failure the target file is untouched; no other file and no lock changes |
| Store.FileSystem.Remove | config.go:48 | only the named file disappears |
| Store.FileSystem.Rename | config.go:60 | the target takes the source's contents and the source disappears |
| Store.DataFilesDistinct | config.go:70-71 | the users and queues files of one directory are distinct, and neither is the other's `.new` copy |
| Store.NewDataPath | config.go:63-77 | a held lock gives nil and the lock error with nothing changed; otherwise the lock is taken and the store starts empty with `users.json` and `queues.json` under the path |
| Store.DataPath.constructor | config.go:69-76 | the initial state: both file names, no users, no queues, an empty index |
| Store.DataPath.SaveErrorOf | config.go:81-84 | the save error is absent exactly when both files save |
| Store.DataPath.Save | config.go:79-87 | both files are always attempted; each that saves holds the current users or queues, each that fails is untouched; the users error wins over the queues error; no other file changes |
| Store.DataPath.Load | config.go:88-111 | after a good users file the users are the compacted list and every surviving user is indexed; after a bad one users and index are unchanged; the queues file is read either way and merged in; the users error wins |
| Store.DataPath.KeepUsers | config.go:92-104 | the in-place drop loop leaves exactly `Compact`, appends one record per non-empty user and indexes those records |
| Store.CompactAndIndex | config.go:92-104 | the loop, proved against `Compact`, `NonEmpty` and `IndexUsers` with its invariant `LoadLoop` |
| Store.CompactKeepsNonEmpty | config.go:92-99 | the drop loop keeps exactly the multiset of non-empty users, shrinks the list by the number of empty names, and leaves no empty name |
| Store.CompactFrom | config.go:92-99 | from any index with a clean prefix, the loop keeps the prefix plus the non-empty users of the rest, as multisets |
| Store.CompactNoEmpty | config.go:92-99 | no user with an empty name survives the loop |
| Store.CompactIdentity | config.go:92-99 | a list without empty names comes out unchanged, in order |
| Store.NonEmptyLength | config.go:92-99 | the non-empty users and the empty ones together are the whole list |
| Store.NonEmptyAppend | config.go:92-99 | filtering out empty names distributes over concatenation |
| Store.LastClaim | config.go:100-103 | the last user claiming a name, by name or alias, or none |
| Store.IndexNamesLookup | config.go:101-103 | after indexing a list of aliases, each alias points at the record and every other name keeps its entry |
| Store.IndexUsersLookup | config.go:100-103 | after indexing, a name points at the record of the last user claiming it; a name nobody claims keeps its old entry |
| Store.IndexUsersRange | config.go:100-103 | every index entry is either old or the record of a loaded user |
| Store.NamesShareOneRecord | config.go:100-103 | a user whose names no later user claims has its name and all its aliases pointing at one shared record |
| Store.PointNames | config.go:101-103 | the alias loop gives exactly `IndexNames` |
| Store.DataPath.Lookup | main.go:164 | a user is found exactly when its name is in the index |
| Store.DataPath.AddUser | main.go:166-169 | the user is appended, its name points at the new slot, and every other name's user is unchanged |
| Store.DataPath.SetLastChatID | main.go:172 | the chat ID is written at the record the name points to, either a slot of `users` or a loaded copy; nothing else changes |
| Chat.ChatBot.Send | main.go:140 | a send succeeds as the oracle says for this call number, and on success is delivered |
| Chat.ChatBot.ReplyTo | main.go:252-256 | a reply goes to the message's chat and cites the message |
| Delivery.Deliveries | main.go:140 | one delivery per text, to the chat, in order |
| Delivery.Flush | main.go:137-144 | what remains is exactly the texts whose send failed, in order; the sent ones are delivered in order; one send per text |
| Delivery.FlushStep | main.go:139-143 | one more text extends the failed or the sent texts by that text, as its send came out |
| Delivery.FailedAppend | main.go:139-143 | the failed and sent texts of a concatenation are those of its parts |
| Delivery.Partition | main.go:139-143 | every text is either kept or sent, never both and never lost: the two multisets add up to the queue |
| Delivery.FailedAt | main.go:139-143 | a text stays in the queue exactly when its own send fails, between the texts before and after it |
| Delivery.FailedExtremes | main.go:139-143 | if every send succeeds the queue empties; if every send fails it stays as it was |
| Delivery.FlushAll | main.go:135-146 | only queues of users with a chat on record are rewritten, each to its failed texts; every other queue, the users and the index stay unchanged |
| Delivery.FlushQueue | main.go:136-145 | one queue is flushed when its user is reachable, and nothing changes otherwise |
| Delivery.DeliverOrQueue | main.go:311-319 | a text goes out live exactly when the user has a chat and the send succeeds; otherwise it is appended to that user's queue alone |
| Delivery.EnsureUser | main.go:163-170 | an unseen sender adds exactly one user with its configured aliases and no chat, indexed by name; a known one changes nothing |
| Delivery.Rechat | main.go:171-184 | the new chat is recorded at the sender's record, the sender's queue is flushed to it keeping the failed texts, and a save without faults persists users and queues; no lock changes |
| Delivery.NoteChat | main.go:163-184 | `ChatNoted`: afterwards the sender's chat is the message's chat; an unseen sender is appended with its aliases; a changed chat flushes the queue to it and a save without faults persists the store; an unchanged chat leaves the queues, the bot and the files alone; no other user changes |
| Delivery.ChatLostOnReload | config.go:92-104 | a chat recorded for a user just loaded from the users file is saved without faults, yet the users file keeps the user's old chat |
| Delivery.ParseMessage | main.go:285-305 | the recipient is the first path segment and never holds a `/`; the path is the recipient alone or starts with it and a `/`; the text is the body of a POST, else the rest after that `/`, empty when there is none |
| Delivery.ParseMessageWritten | main.go:285-305 | the paths the senders build parse back to their recipient and text |
| Delivery.AcceptMessage | main.go:298-322 | `MessageAccepted`: empty text gives 400 and nothing changes; a live send gives 201 with queues and files unchanged; otherwise the text is appended to the recipient's queue and saved, and a save error is fatal; users and index never change |
| Delivery.DeliverAndSave | main.go:311-322 | the non-empty half of the handler: 201 on a live send, else queue and save |
| MainHub.CommandToken | main.go:186-189 | the command token has no space and is either the whole text or the text before its first space |
| MainHub.HelpToken | main.go:186-191 | `/help`, alone or followed by a space, is the help command |
| MainHub.RepliesToCases | main.go:186-203 | `/help` gets the help text in any chat; anything else in a group, or an empty text, gets nothing; every other message gets the single reply of the executor as written |
| MainHub.UpdateRepliesAppend | main.go:157-204 | the replies to a run of updates are those of its parts, in order |
| MainHub.CliReachesServer | main.go:76-80 | the URL and body the command-line sender posts parse back, in the handler, to its recipient and text |
| MainHub.SendFromCommandLine | main.go:72-118 | a server that answers ends the sender with nothing else done; a held lock ends it; otherwise a live send with the loaded queues unchanged, or the loaded queues with the text appended to the recipient's queue (persisted when reported as queued) |
| MainHub.SendOrQueue | main.go:104-117 | a live send exactly when the user has a chat and the send succeeds, with queues and files unchanged; otherwise exactly the recipient's queue gains the text and the store is saved; a failed live send is reported even though the text is queued; a save error is reported only when no send was tried; users and index never change |
| MainHub.Srv.Startup | main.go:132-149 | after loading and flushing, a save without faults persists the store |
| MainHub.Srv.HandleUpdate | main.go:157-203 | an update without a message changes nothing; otherwise the sender's chat is noted, with all of `ChatNoted`, and the replies are those of `RepliesTo` |
| MainHub.Srv.Respond | main.go:186-203 | the replies are exactly `RepliesTo` with the executor as written; no send is made |
| MainHub.Srv.Serve | main.go:157-204 | the replies to a run of updates are `UpdateReplies`, in order |
| MainHub.Srv.ServeHTTP | main.go:281-323 | all of `MessageAccepted` for the request's recipient and text |
| Executor.ParseCommand | main.go:218-221 | the command has no space |
| Executor.ParseCommandWritten | main.go:218-221 | `/name args` and `name args` parse to the name and the unsplit remainder; `/name` has empty args |
| Executor.ParseCommandParts | main.go:218-221 | one leading `/` is trimmed, the command is the text up to the first space, and the arguments are everything after it |
| Executor.ScriptPath | main.go:222 | the script starts with the base directory, ends in `/<command>.sh` and is exactly long enough for one `/` between them (the base directory's own trailing `/` when it has one), or is `<command>.sh` when the base directory is empty |
| Executor.ScriptPathDetermined | main.go:222 | those three facts leave one path only: the script is `<command>.sh` directly under the base directory |
| Executor.EnvValue | main.go:230-231 | a key has no value exactly when no entry sets it; otherwise the value is that of the last `key=value` entry |
| Executor.ChildEnvHasSender | main.go:230-231 | the child's environment carries the sender as `TBOT_SENDER` |
| Executor.PermString | main.go:228 | a mode renders as ten characters starting with `-` |
| Executor.PermStringShowsExec | main.go:227 | a mode has an execute bit exactly when its rendering shows an `x` |
| Executor.Wrap | main.go:225 | wrapping nil gives nil; a wrapped error reads `context: cause`, and `%+v` shows the cause and then the context |
| Executor.Render | main.go:214 | `%+v` of nil is `<nil>`, and only nil renders so |
| Executor.ExecuteStartsOnlyExecutable | main.go:208-246 | a script starts exactly when the message is private and non-empty and the script exists with an execute bit; it then runs as `sh -c "<script> <args>"` in the base directory with the sender in its environment |
| Executor.ExecuteAsWrittenAnswers | main.go:208-246 | as written, an ignored message gets nothing and every other one exactly one reply; it starts the same scripts as the corrected executor; an error comes with its rendering as the reply; a reply without an error is the script's output, or `<nil>` for a script without execute bits |
| Executor.ExecuteAlwaysAnswers | main.go:208-246 | corrected, every message that is not ignored gets exactly one reply, which is the rendered error when there is one and the script's output otherwise |
| Executor.ExecuteDiffersOnlyOnPermission | main.go:227-229 | the code as written and the corrected executor differ exactly on scripts without execute bits |
| Executor.PermissionErrorLost | main.go:227-229 | as written, a script without execute bits is answered `<nil>` and no error is returned; corrected, the error names the permissions |
| Executor.Mode644 | main.go:228 | mode 0644 renders as `-rw-r--r--` and has no execute bit |
| Executor.PermissionErrorLostExample | main.go:227-229 | `/deploy` with `/bot/deploy.sh` at mode 0644 is answered `<nil>` as written, and `permission=-rw-r--r--` corrected |
| Http.ErrorResponse | main.go:307 | an error response carries the status, and its body is the message followed by one newline |
| GoStrings.SplitN2 | main.go:285 | splitting in two gives one or two parts that join back to the input; one part exactly when there is no separator; so there is always a first part |
| GoStrings.SplitJoin | server.go:159 | splitting joined parts without separators gives the parts back |
| GoStrings.JoinSplit | server.go:159 | joining the split parts gives the input back |
| GoNet.SplitHostPort | server.go:28 | a port that splits off holds no colon or bracket |
| GoNet.SplitJoinHostPort | agent.go:30 | splitting a joined host and port gives them back |
| GoNet.QueryEscape | server.go:182-186 | an escaped value holds only unreserved characters, `%` and `+` |
| GoNet.EscapeUnreserved | server.go:182-186 | unreserved text escapes to itself |
| GoNet.EncodeSplits | server.go:182-186 | an encoded query splits on `&` into one `key=value` per pair, keys in sorted order and each key's values in order |
| ServerHub.RegisteredName | server.go:27 | the agent name is the path with `/register/` removed, or the whole path |
| ServerHub.AgentAddress | server.go:28-34 | the address starts with `https://` exactly when the request came over TLS |
| ServerHub.LastRegistration | server.go:34 | the last registration under a name, or none |
| ServerHub.LastRegistrationWins | server.go:34 | after a run of registrations a name maps to its last address; a name never registered keeps its entry |
| ServerHub.AgentRegistersItself | server.go:26-34 | the hub records an agent under its own name, at the scheme, the peer host and the port the agent sent |
| ServerHub.Srv.Register | server.go:26-36 | the registry maps the name to the address, and every other entry stays |
| ServerHub.RouteOf | server.go:86-103 | a message route carries exactly the path after `/message` |
| ServerHub.Srv.ServeHTTP | server.go:82-104 | PUT under `/register` registers; `/message` paths go to the message handler, with all of `MessageAccepted` and the `Empty message` body for 400; any other POST gets 400; anything else gets the dump, with nothing changed |
| ServerHub.ProxiedMessageReachesHub | agent.go:65-84 | a message proxied by an agent reaches the hub's message handler with its recipient and text |
| ServerHub.ParseHubCommand | server.go:157-160 | the command has no space; there are arguments exactly when the text has a space, and command and arguments join back to the text |
| ServerHub.ParseHubCommandWritten | server.go:157-160 | a command followed by space-free arguments parses back to them |
| ServerHub.DecideCases | server.go:157-186 | empty texts are skipped; a message is dispatched exactly when it is `/command agent ...` for a registered agent with an address, and then to that agent's `/execute/` URL; everything else is answered at once |
| ServerHub.BareHelpAlsoGetsUsage | server.go:161-174 | a bare `/help` gets the help text and then the usage text |
| ServerHub.UnknownAgentNotCalled | server.go:176-181 | a command for an agent that is not registered, or has no address, is answered at once (the help text first for `/help`, then the unknown-agent reply naming the registry) and is not dispatched |
| ServerHub.DispatchPath | server.go:182-186 | a dispatch path lies under `/execute/` |
| ServerHub.DispatchURLPath | server.go:182-186 | a dispatch URL is the agent's address followed by a path under `/execute/` |
| ServerHub.DispatchQuerySplits | server.go:182-186 | the query is one `&`-separated pair per argument, in order, then the sender |
| ServerHub.DispatchQueryPlain | server.go:182-186 | with plain arguments the query reads `args=a1&...&from=sender` |
| ServerHub.DispatchOf | server.go:176-186 | `/command agent rest...` for a registered agent is dispatched to that agent with `rest` as the arguments |
| ServerHub.RunDispatch | server.go:182-186 | `/run box a b` goes to `<box>/execute//run?args=a&args=b&from=<sender>`, with the slash doubled |
| ServerHub.DispatchRelayed | server.go:187-198 | a dispatch is answered with the agent's body verbatim, or the URL and the error |
| ServerHub.DispatchToAgentRepliesEmpty | server.go:182-198 | against an agent as `agent.go` has it, a dispatched command gets an empty reply |
| ServerHub.Srv.HandleUpdate | server.go:128-199 | no message or an empty text changes nothing; otherwise the sender's chat is noted, with all of `ChatNoted`, and the replies and the fetch are those of the decision |
| ServerHub.Srv.Answer | server.go:161-198 | the replies are the decision's, and at most one URL is fetched |
| ServerHub.Srv.ReplyAll | server.go:161-198 | the bodies are replied to the message in order |
| ServerHub.Replies | server.go:161-198 | one reply per body, to the message's chat, in order |
| ServerHub.Srv.ServeUpdates | server.go:128-199 | the replies and fetches of a run of updates are those of each update in order, and the registry stays |
| ServerHub.Srv.Run | server.go:106-201 | after the start-up flush and save, the chat loop makes exactly `LoopReplies` and fetches exactly `LoopFetches` |
| ServerHub.LoopFetchesDispatch | server.go:176-187 | every URL the chat loop fetches is the `/execute/` URL of a registered agent, for a message of the run |
| Agent.RegisterURLCarriesPort | agent.go:30-31 | listening on `host:port` registers at `upstream/register/name?port=port` |
| Agent.RegisterURLWithoutPort | agent.go:30-31 | an address without a port registers an empty port |
| Agent.MessagePath | agent.go:69 | the proxy target lies under `/message` and keeps a path that starts with `/` |
| Agent.ServeHTTPRoutes | agent.go:86-97 | only `/message` paths reach the hub, with the rest of the path and the body, answered by the hub's response or a 400; anything else gets an empty 200 |
| Agent.ExecuteRequestUnanswered | agent.go:86-97 | the hub's `/execute/` request is answered with an empty 200 |
| Agent.AgentExecute | agent.go:99-136 | as written, a private, non-empty `/name args` runs `<baseDir>/name.sh args` with the sender appended to the environment, only when the script has an execute bit; a script without one is answered `<nil>` with no error; group or empty messages do nothing |

## Left out

- The Telegram API is left out. Sending is an oracle indexed by call number (`ChatBot.succeeds`), and replies are only recorded. `GetUpdatesChan` becomes a given sequence of updates.
- HTTP servers and clients are left out. Requests and responses are values. A GET made by the hub is a given function of the URL, and the agent's forward to the hub is a given function of target and body. Whether the hub answers the command-line sender is a parameter (`posted`). Copying response bodies cannot fail in the model.
- Processes are left out. `runWithContext`, `exec.Command(Context)`, the goroutine and the 15-second timer make up one run, given as a function from the command to its outcome. The context's kill is not modelled.
- The agent's registration heartbeat (`errgroup`, `time.Tick`) and `ListenAndServe` are concurrency and network I/O. Only the register URL is modelled.
- The lock library, `os.MkdirAll` and JSON are left out. A lock is a set of held lock files. A file holds a decoded document, and a document of the wrong kind fails to decode. Each save step fails or not as `SaveFaults` says. Partial decodes into the target are not modelled.
- The mutex in `Save` and `Load` is not needed by a sequential model.
- Flag parsing and environment lookups are configuration. The data directory, the base directory and the environment are parameters.
- Go's `path.Join` cleaning of `.`, `..` and doubled slashes is not modelled. Nor is `filepath.Join`'s, which is why command names containing `..` are not rejected here either.
- `agent.go`'s `execute` has no caller in the repository. It is modelled as a function of the agent's base directory (`Agent.AgentExecute`), not as part of an endpoint.
- Slice capacity and reallocation are left out. Once `append` reallocates `users`, Go leaves a `Slot` pointer on the old array. The model keeps every `Slot` pointing at the current slice.
- `%q` quoting does not escape control or non-printing characters. Stack traces of `pkg/errors` wrappers are dropped from `%+v`.
- The `log.Fatal` after a failed save in the message handlers is returned as `fatal`. The process does not stop in the model.
- `main.go`'s server mode only logs a `newDataPath` failure and then goes on with a nil store. The model starts the server from a store that was opened.
- `getBot`'s fatal exits, for a missing token or a bot that cannot be created, are left out.
- The JSON dump of users and queues is returned as the values it would encode.
- Delivery.FlushAll: visits the queues in no fixed order, as Go's map iteration does. Its contract names the send number each queue's flush starts at as a ghost result, not a fixed one.
- MainHub.Srv.Startup: states the store after the save, but not the flushed queues. Delivery.FlushAll states those.
- ServerHub.Srv.Run: states the chat loop's replies and fetches, but not the queues after the start-up flush. Delivery.FlushAll states those.

Where the repository's documentation and its code disagree, the model follows the code:

- A missing data file makes `Load` fail. It is not treated as empty.
- The hub's `/execute/` query lists `args` before `from`, because `url.Values.Encode` sorts keys.
- The `len(parts) < 1` dump branch of the message handlers cannot be reached.
- Command names are not checked for path traversal.
- Only chats of type `group` count as groups, so supergroups are answered.
- In `server.go` a bare `/help` also gets the usage reply.
- The dispatched command keeps its `/`, so the URL has `/execute//command`.
- `agent.go` has no `/execute` handler, so a dispatched command is answered with an empty 200.
- `main.go` answers `/help` in group chats too.
- `server.go`'s chat loop has no group check: group messages are noted and answered like private ones.
- The command-line sender reports a failed live send even though it then queues the text.

## Findings

| source | as written | input that shows it | evidently intended | confidence | as-written member | corrected member |
|---|---|---|---|---|---|---|
| main.go:227-229 | the permission check returns `E(errors.Wrapf(err, ...))` with `err` nil from the successful stat; `Wrapf(nil, ...)` is nil, so the sender is replied `<nil>` and `execute` returns nil | a private message `/deploy` with `/bot/deploy.sh` at mode 0644 | reply and return an error `permission=-rw-r--r--` | not executed | Executor.PermissionErrorLostExample | Executor.Execute |
| agent.go:118-120 | the same `Wrapf` of the nil stat error in the agent's `execute` | the same message, with the agent's base directory at `/bot` | the same error naming the permissions | not executed | Executor.PermissionErrorLost | Executor.Execute |
