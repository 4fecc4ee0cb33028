# HyperTransfer: a verified model

HyperTransfer is an FTP server with three kinds of threads. One event loop owns every socket, session
workers execute commands, disk workers read and write files. They share nothing but queues: a socketpair of
notifications for the event loop, one task queue for each session worker, one for each disk worker, and the two
write queues of a client. This project models those threads and the parsers around them in Dafny 4.11 and proves
what they promise together.

`dafny verify dfyconfig.toml` checks everything.

## What is modelled

**The transfer protocol.** `Protocol.Step` says what one event does to one connection: a call of one
of the seven libevent handlers, or one turn of a worker. Partial reads, partial writes and the order
of events are free. `Objects` has the classes TCP_client, session and disk_info with the fields the
program updates; `Shards.Pool` is a thread pool with a queue for each worker; `Server.Server` is the
server: handlers, commands and worker turns as methods that change these objects in place, each
proved to do to its own connection exactly what `Protocol.Step` does and nothing to any other.
`Server.Serve` runs the server under any schedule and proves that every connection sees a run of
`Protocol.Step` of its own, first in first out, whatever the number of workers.

`History` records what a specification has to talk about (bytes sent, received and written, replies,
gate decisions). `Transfers.In` is the invariant: fourteen phases, each saying where the only
message of the transfer is and which bytes are where. `TransferSteps` shows that every event leads
from a phase to a phase. `Guarantees` draws the conclusions for bytes, tokens and replies;
`Liveness` has the rank that shows that a fairly served transfer ends; `Gates` has what holds in
every run, however the client behaves.

`Sessions` says what a session knows, answers and starts in terms of the tasks it has handled: who is logged in
and by which PASS, with which rights, which command is accepted, and from which offset a transfer starts. It
does not use the state machine: `Sessions.SessionKnown` and `Sessions.TaskAnswered` prove that the state
machine meets it in every run. `Connections` does the same for what the event loop keeps of a client.

The client is *polite* (`Transfers.Polite`) in the theorems that say so: one transfer at a time,
with PASV and APPE sent only when none is under way; the data socket is connected after the transfer
command has been carried out; upload bytes come after the 150; a downloading client neither sends
nor closes on the data socket; the client hangs up only when no transfer is under way. A run may
hold any number of such clients of one descriptor, one after the other. The gates, the order of replies and
the bound of the upload buffer need no polite client. `Inheritance` says what a client gets that its
descriptor owes to a former one. `Witnesses` has the runs that show where a property fails.

**The parsers and printers.** `ConfigSpec` and `ConfigParser` have the configuration file: what a
text means, and the parser with its line of lookahead. `ConfigLaws` has the laws of parser and
printer. `Paths` has CWD, PWD and the path resolution, on NUL-terminated buffers where the program
edits them. `Framing` has the command buffer, `Pasv227` the reply to PASV, `UserList` the scanner of
the user list.

Some results are about what the code does *not* do. Each has its exact condition and an input that shows it:

- A session outlives its client. A client of a reused descriptor is logged in without a PASS of its
  own if and only if the descriptor had a logged-in session when its accept task was handled
  (`Gates.LoginSource`); it can then transfer (`Witnesses.StaleLogin`).
- The queues outlive a client too. Before its own greeting a client is sent exactly the replies that
  the socketpair held when it was accepted and the answers to the tasks that waited then, so its
  greeting comes first if and only if these are none (`Inheritance.FormerReplies`, with runs in
  `Witnesses.StaleReply` and `Witnesses.StaleAnswer`). Later it may be told of a PASV or a transfer
  of the former client (`Witnesses.StalePort`). If nothing waits when it is accepted, all its replies
  are its own (`Inheritance.OwnRepliesOnly`).
- An upload whose buffer is empty when the client closes never gets its 226, and that is the only
  case (`Liveness.UploadEndsIff`, with an endless fair run in `Witnesses.SilentUpload`).
- The process follows a null pointer, and ends, at a notification for a client that is gone, at a READ
  that leaves no line end in the buffer, at a STOR, APPE or RETR whose path is refused, and at a PASS
  for the built-in name in a session that has no account. In the model it ends in these cases and in
  no other (`Server.Server.Handle`, `Server.Serve`); each is reached (`Witnesses.GoneClient`,
  `Witnesses.NoLineEnd`, `Witnesses.RefusedPath`, `Witnesses.NoAccount`).
- A reply may stay in the write queue with nothing to send it: exactly when on_write last found more than one
  reply (`Connections.LeftBehindIff`). A polite client that reads every reply at once can wait for its 226 for
  ever (`Witnesses.UnsentReply`).
- A blank line in front of a command is executed together with it, and when more follows the command stays in
  the buffer and is executed again (`Framing.BlankLineFirst`).
- The offset of a REST or an APPE stays for every later transfer of the session until another one sets it
  (`Sessions.OffsetStays`).
- A comment has no meaning except that a line with nothing else does not end a value, as a blank line does
  (`ConfigLaws.CommentIgnored`, with a text in `ConfigLaws.CommentInValue`).
- A configuration text that does not end in a newline repeats its last line in a value that the line
  continues, and that is the only case (`ConfigLaws.MissingNewline`, with a text in
  `ConfigLaws.MissingNewlineExample`). The parser's own comments promise nothing about this.
- CWD stays under the root except when it climbs above it and then names another way down
  (`Paths.CwdLexical`, with a path in `Paths.ClimbsOut`).
- The path PWD shows leads back except when it is "/../" (`Paths.PwdThenCwd`), which CWD "/.." brings
  about (`Paths.DotsDirectory`).

## Model

| member | source | states |
|---|---|---|
| Guarantees.DownloadSendsSource | disk_fsm.cpp:45-146 | In every run of a polite client, when the 226 of a download is posted, the bytes sent are the listing of the directory, or the file from the restart offset on, that the last start task handled in the run opened |
| Guarantees.UploadWritesReceived | disk_fsm.cpp:56-217 | In every run of a polite client, when the 226 of an upload is posted, the file is the one that the last start task handled in the run opened, overwritten from its offset by exactly the bytes read from the data socket since |
| Sessions.SessionKnown | finite_state_machine.cpp:31-170 | In every run a session is what the tasks handled for it say: login, rights, name, account, data action and offset, each given by its own reading of the tasks |
| Sessions.TaskAnswered | finite_state_machine.cpp:80-361 | In every run the replies and start tasks posted for the next task follow from the tasks handled before: which commands are accepted, which code refuses the others, and what a data connection starts |
| Sessions.LoginMeaning | finite_state_machine.cpp:416-456 | In every run a session is logged in if and only if it has handled a PASS that matches when a USER had set a name, or any PASS when the name was Anonymous |
| Sessions.PassMeaning | finite_state_machine.cpp:416-456 | One PASS: logged in after it if and only if before it, or the name is Anonymous, or it is another name and the password matches; the rights change in the last case only; 230 exactly for the last two |
| Sessions.RightsMeaning | finite_state_machine.cpp:433-444 | In every run the rights of a session come from the entry of the last USER to find one before the last PASS to let a named user in |
| Sessions.AdmittedHasEntry | finite_state_machine.cpp:385-389 | In every run a PASS lets a named user in only after a USER that found an entry |
| Sessions.OffsetStays | fsm_transfer.cpp:507-516 | The offset stays until another REST or APPE, however many transfers use it |
| Sessions.StartsInOrder | disk_manager.cpp:35-53 | In every run the start tasks handled by the disk worker, then those waiting, are exactly those the session tasks ask for, in order |
| Sessions.StartWasAsked | fsm_transfer.cpp:363-371 | In every run the k-th start task handled, with its kind and offset, was asked for earlier by the k-th task to ask for one |
| Sessions.AskedByCommand | fsm_transfer.cpp:212-479 | What is asked for goes back to a command of its kind that met its conditions: login, PASV, right, a missing target for STOR, a regular file not shorter than the offset for RETR |
| Sessions.DownloadSendsAsked | fsm_transfer.cpp:482-505 | In every run of a polite client, when the 226 of a download is posted, the bytes sent are the listing, or the file from the offset on that the last REST or accepted APPE before the data connection has set, 0 without one; the data connection is the last one to ask for a transfer |
| Sessions.UploadWritesAsked | fsm_transfer.cpp:363-371 | In every run of a polite client, when the 226 of an upload is posted, the file is overwritten from that offset by the bytes received |
| Guarantees.StartIsKnown | fsm_transfer.cpp:363-371 | In every run, what is recorded of a transfer goes back to the last start task handled, unless its own start task still waits and is the youngest |
| Guarantees.DownloadRefinesCopy | disk_fsm.cpp:267-298 | In every run of a polite client the bytes on the socket, the unsent rest of the chunk in flight and the unread rest of the source are together the bytes wanted; when the 226 is posted, exactly those have been sent |
| Guarantees.WantedIsSource | disk_fsm.cpp:45-85 | The bytes wanted are the listing of the directory, or the file from the restart offset on |
| Guarantees.SingleToken | disk_fsm.cpp:102-146 | From the start of a LIST or RETR until its 226 is queued exactly one of its messages exists in all queues; the disk_info exists exactly while that is a chunk or an acknowledgement; at most one buffer is queued for the data socket, and then its event is armed |
| Guarantees.UploadRefinesOverwrite | disk_fsm.cpp:149-217 | Bytes written, chunks on their way and buffer are together the bytes received, and the file is the one opened, overwritten from the offset by the bytes written; when the 226 is posted, that is all of them |
| Guarantees.WriteAtMeaning | disk_info.h:130-144 | What overwriting means for each byte: inside the range the data, outside the old file, zeros in a gap |
| Guarantees.BufferBounded | TCP_data_event.cpp:140-168 | In every run the upload buffer stays within its flush limit, so the exit is never reached and copying stays in bounds; every chunk flushed early has between 1047117 and 1048576 bytes |
| Guarantees.BufferStep | TCP_client.h:139-150 | Each event keeps the bounds of the buffer and of the chunks |
| Guarantees.ReplyOrder | fsm_transfer.cpp:507-516 | In every prefix of the replies the number of 226 is at most the number of 150 and at least one less (RFC 959, section 5.4) |
| Guarantees.ClosedWhenComplete | TCP_ctrl_event.cpp:223-242 | When the 226 handler closes the data connection the transfer is complete and nothing of it is left in any queue or buffer |
| Guarantees.RepliesInOrder | TCP_interface.h:99-119 | In every run the replies sent, then those queued for the socket, then those in the socketpair are exactly those the socketpair held when the client was accepted and those posted since, in order, none lost or repeated |
| Guarantees.RepliesStep | TCP_ctrl_event.cpp:169-242 | Each event keeps that order |
| Guarantees.LedgerStep | TCP_ctrl_event.cpp:169-242 | Replies queued, then replies in the socketpair: a session task appends what it posts, no other event but an accept changes them |
| Connections.LeftBehindIff | TCP_ctrl_event.cpp:337-406 | In every run replies wait in the queue without an event to send them if and only if the last event to touch them was an on_write that found more than one |
| Connections.LeftBehindStep | TCP_ctrl_event.cpp:164-178 | One event: only a new reply, a new client or on_write changes whether replies wait without an event |
| Witnesses.UnsentReply | TCP_ctrl_event.cpp:389-406 | A polite run of a client that reads every reply at once, after which the 226 of its listing is queued and nothing can happen until the client sends something or hangs up |
| Connections.ChannelKnown | TCP_ctrl_event.cpp:198-242 | In every run whether a client listens, whether its data socket is connected and which bytes of an upload it keeps follow from its PASV notifications, connections, pieces, ends of data and 226 |
| Connections.PortsAreBound | TCP_ctrl_event.cpp:204-219 | In every run each port told to the session worker is one that a client was made to listen on |
| Connections.OlderDiskStays | disk_manager.cpp:55-62 | A start task for a descriptor that has a disk_info leaves it in place and still posts its chunk or 150 task |
| Connections.NoDiskNoEffect | disk_fsm.cpp:86-101 | Without a disk_info any other disk task has no effect |
| Guarantees.OffsetWraps | disk_task.h:79-82 | The offset of a start task is cut to 32 bits, and a negative one counts as 0 |
| Inheritance.InheritedFirst | session_manager.cpp:41-47 | The replies posted for a client begin with those in the socketpair when it was accepted and the answers to the tasks that waited then; its own greeting comes next |
| Inheritance.FormerReplies | finite_state_machine.cpp:43-76 | Up to its own greeting exactly these go back to a former client, so the greeting is the client's first reply if and only if there are none; after it, only replies to a PASV or a transfer of the former client do |
| Inheritance.OwnRepliesOnly | finite_state_machine.cpp:43-76 | A client whose descriptor has nothing waiting when it is accepted gets its own replies only |
| Inheritance.StaysClean | session_thread_pool.cpp:53-70 | Once nothing in the queues goes back to a former client, no later reply does |
| Witnesses.StaleReply | TCP_ctrl_event.cpp:280-291 | A run after which a new client is to get the greeting posted for the former one |
| Witnesses.StaleAnswer | TCP_ctrl_event.cpp:280-321 | A run in which the socketpair is empty at the accept, and the new client is to get the answer to the former one's USER |
| Witnesses.StalePort | TCP_ctrl_event.cpp:198-221 | A run in which a client gets its own greeting and then the 227 for a PASV of the former one |
| TransferSteps.PoliteRunsKeepPhases | disk_fsm.cpp:34-239 | The invariant: after every polite run the connection is in one of the fourteen phases and its replies alternate |
| TransferSteps.StepPolite | TCP_data_event.cpp:43-250 | Every event of a polite client leads from a phase to a phase |
| TransferSteps.StepAccept | TCP_ctrl_event.cpp:116-137 | So does a new client of a descriptor whose former one has hung up, whatever replies are still pending |
| TransferSteps.StepHangUp | TCP_ctrl_event.cpp:280-291 | So does a hang-up when no transfer is under way |
| TransferSteps.StepSession | finite_state_machine.cpp:80-168 | Every turn of the session worker does |
| TransferSteps.StepDisk | disk_fsm.cpp:86-239 | Every turn of the disk worker does |
| TransferSteps.StepNotify | TCP_ctrl_event.cpp:114-267 | Every notification does |
| TransferSteps.StepDrain | TCP_data_event.cpp:173-250 | Every partial or complete write to the data socket does |
| TransferSteps.StepReceive | TCP_data_event.cpp:140-168 | Every piece of an upload is accounted for, flushed or not |
| TransferSteps.StepEndOfData | TCP_data_event.cpp:108-124 | The end of an upload flushes what is left and keeps the bytes together |
| TransferSteps.StepOpening | fsm_transfer.cpp:235-251 | Starting a transfer posts one start task and, for a download, its 150 |
| TransferSteps.DiskLoading | disk_fsm.cpp:107-132 | An acknowledgement asks for the next chunk, and the bytes stay together |
| TransferSteps.DiskUploading | disk_fsm.cpp:150-217 | A chunk written keeps the file equal to the overwritten one; the final one ends the transfer if it is not empty, and closes the file without an end if it is |
| TransferSteps.WriteStep | disk_info.h:141-144 | One write() extends the range that has been overwritten |
| Transfers.WriteTwice | disk_info.h:141-144 | Writing two chunks after each other is writing them as one |
| Transfers.ReadChunkSplits | disk_info.h:135-139 | A chunk read and what is unread after it are what was unread before, and the chunk is empty only at the end |
| Transfers.ListPageSplits | disk_fsm.cpp:241-265 | A page and the pages left are what was left before |
| Liveness.DownloadsEnd | disk_fsm.cpp:102-146 | In every fair infinite run, every LIST or RETR that was started posts its 226, empty files and directories included |
| Liveness.UploadsEnd | disk_fsm.cpp:184-217 | In every fair infinite run an upload whose last flush is not empty posts its 226 |
| Liveness.UploadEndsIff | disk_fsm.cpp:189-195 | The 226 of an upload is posted if and only if the buffer is not empty when the client closes |
| Liveness.EmptyFlushNeverEnds | disk_fsm.cpp:191-195 | After an empty last flush no later state has a 226 task or notification |
| Witnesses.SilentUpload | disk_fsm.cpp:184-195 | An endless polite run in which every thread is served for ever, the client closes with an empty buffer, and no 226 is ever posted |
| Witnesses.OpenUpload | fsm_transfer.cpp:363-384 | A polite run that reaches an upload that has been greeted and whose buffer is empty |
| Liveness.HolderIsReady | TCP_data_event.cpp:227-248 | A transfer never waits for itself: the thread that holds its message can always move |
| Liveness.HolderStep | TCP_data_event.cpp:227-248 | Each move of the thread that holds the message lowers the lexicographic rank or posts the 226 |
| Liveness.OtherStep | disk_fsm.cpp:34-239 | No other event raises the rank |
| Liveness.ChunkCosts | disk_fsm.cpp:241-298 | One more chunk costs less than its acknowledgement was worth |
| Gates.LoginGate | finite_state_machine.cpp:65-132 | In every run a session whose data action is not DATA_WAITING, or with a PASV under way, is logged in |
| Gates.LoginSource | session_manager.cpp:41-47 | In every run, since its accept task was handled, a client's session is logged in without a PASS of its own if and only if the descriptor had a logged-in session at that task; only then, or after its own PASS, is a transfer prepared or under way |
| Gates.KeptIsEarlierLogin | finite_state_machine.cpp:44-62 | What is recorded as kept is the login of the session the descriptor has when the accept task is handled, which that task leaves as it is |
| Gates.AccessStep | finite_state_machine.cpp:416-456 | Each event keeps that a session is logged in exactly by its client's own PASS or by the login kept |
| Witnesses.StaleLogin | finite_state_machine.cpp:150-162 | A run in which a client logs in and hangs up, and the next one of the descriptor has a listing started with PASV and LIST alone |
| Witnesses.GoneClient | TCP_ctrl_event.cpp:155-162 | A run after which the next notification is for a client that is gone |
| Witnesses.NoLineEnd | finite_state_machine.cpp:135-138 | A run after which the next task is a READ without a line end |
| Witnesses.RefusedPath | fsm_transfer.cpp:291-292 | A run after which the next task is a STOR whose path is refused |
| Witnesses.NoAccount | finite_state_machine.cpp:385-389 | A run after which the next task is the PASS of the built-in name in a session without an account |
| Framing.UnendedExample | session.h:199-209 | The first two letters of USER are such a READ |
| Gates.RightsGate | fsm_transfer.cpp:254-371 | In every run each start task follows a command of its kind accepted on a session that was logged in, by this client or a former one of the descriptor, and had the right |
| Gates.StartCounting | fsm_transfer.cpp:222-250 | At any moment downloads started, plus one if one waits to start, are at most LIST and RETR accepted, and those, plus one if a connection is prepared, at most completed PASVs |
| Gates.StartedMeansPosted | fsm_transfer.cpp:363-371 | The start facts counted are exactly the start tasks posted to the disk worker, of the same kind |
| Gates.GateStep | fsm_transfer.cpp:106-124 | Each event keeps the three gates |
| Gates.LoginStep | finite_state_machine.cpp:416-456 | Each event keeps the login gate |
| Replies.OwedCounts | fsm_transfer.cpp:373-384 | The balance kept in the invariant is the number of 150 less the number of 226 |
| Server.Serve | session_thread_pool.cpp:38-75 | Under any schedule, for any numbers of workers: each call comes to the event it is about, if that is enabled, or to the next message of its queue, if there is one for any connection, and to nothing otherwise; the process ends at the first call whose message follows a null pointer and at no other; each connection goes through a run of its own; its session and disk_info are the sequential fold of its tasks; tasks handled, then tasks queued, are tasks posted |
| Server.Turns | session_thread_pool.cpp:38-75 | One call of the schedule: its event is appended to the trace, or there is nothing to do for it, or it ends the process |
| Server.SomethingDue | session_manager.cpp:30-35 | The oldest message of the queue a call is about belongs to a connection of that worker and is the oldest of its connection |
| Server.NothingToDo | disk_manager.cpp:45-50 | If a queue is empty, no connection of that worker has a message waiting |
| Server.Server.Handle | TCP_ctrl_event.cpp:145-162 | One call of any thread: the oldest message of its queue, or its event, happens to its connection, or ends the process if and only if it follows a null pointer |
| Server.Server.HandleNext | disk_thread_pool.cpp:42-71 | That event is appended to the run of its connection and of no other |
| Server.AgreesOn | session_thread_pool.cpp:53-70 | One more event of a connection: its run goes on, and its session and disk_info stay the fold of its tasks |
| Server.AgreesElsewhere | session_manager.cpp:30-35 | Events of other connections change none of that |
| Server.ServedLoginGate | session_manager.cpp:49-66 | The login gate on the session objects of the running server |
| Server.ServedSession | session_manager.cpp:49-66 | Every field of a session object of the running server is what the tasks handled for its descriptor say |
| Server.ServedDownload | disk_fsm.cpp:116-141 | A download of the running server has sent what was asked for, from the offset asked for, when its 226 is posted |
| Server.OrderKept | disk_manager.cpp:35-53 | Tasks handled, then tasks queued, are tasks posted, for each descriptor in both pools |
| Server.Server.constructor | session_manager.cpp:17-21 | The server starts with no connection, and queues and maps are its own |
| Server.Server.OnAccept | TCP_ctrl_event.cpp:116-137 | A new client object and an accept task for this descriptor; no other connection is touched |
| Server.Server.OnRead | TCP_ctrl_event.cpp:305-322 | A read task for this descriptor, nothing else |
| Server.Server.OnHangUp | TCP_ctrl_event.cpp:280-291 | The client object goes, the session stays, a disconnect task is posted |
| Server.Server.OnNotify | TCP_ctrl_event.cpp:145-267 | The oldest notification has its effect on its own connection only; if its client is gone, the process ends |
| Server.Server.NotifyClient | TCP_ctrl_event.cpp:164-260 | The four notifications for a client that is there, and the tasks they post |
| Server.Server.DataAccept | TCP_data_event.cpp:43-89 | The data socket is connected and the session worker told |
| Server.Server.DataRead | TCP_data_event.cpp:140-168 | The piece is buffered, the buffer flushed when nearly full; the exit is not taken |
| Server.Server.DataEnd | TCP_data_event.cpp:108-124 | The rest of the buffer is posted and the data connection closed |
| Server.Server.DataWrite | TCP_data_event.cpp:173-250 | The chunk advances by what was written, and is acknowledged when it is all written |
| Server.Server.OnWrite | TCP_ctrl_event.cpp:337-406 | The first reply leaves the queue once it is all written |
| Server.Server.SessionTurn | session_thread_pool.cpp:53-70 | A worker takes the oldest task of its queue and rolls the session state machine; it is the oldest task of its descriptor too |
| Server.Server.RunSessionTask | finite_state_machine.cpp:31-170 | Rolling the session state machine changes its own connection as Protocol.RollSession says, and no other |
| Server.Server.RollSessionTask | finite_state_machine.cpp:31-170 | Dispatch of a session task on the session map, insertion only if absent |
| Server.Server.RollExisting | finite_state_machine.cpp:80-168 | Dispatch of a task for a session that exists; the process ends if and only if the READ leaves no line end or the command follows a null pointer |
| Server.Server.RunLoad | fsm_transfer.cpp:235-251 | The three run_load functions: new data action, 150 for downloads, one start task |
| Server.Server.RunCommand | finite_state_machine.cpp:242-361 | Each command has the effect Protocol.Execute gives |
| Server.Server.ComUser | finite_state_machine.cpp:373-413 | USER: name, account and reply after the comparisons with the two fixed names and the user list |
| Server.Server.ComPass | finite_state_machine.cpp:416-456 | PASS: login, and the rights of the account, which the built-in name may not have |
| Server.Server.ComPasv | fsm_transfer.cpp:106-135 | PASV: refused without login, else a notification |
| Server.Server.ComList | fsm_transfer.cpp:212-233 | LIST: refused without login or PASV |
| Server.Server.SetFileName | session.h:340-343 | A refused path is a null pointer |
| Server.Server.ComStor | fsm_transfer.cpp:254-307 | STOR: refused without login, PASV or right, and for a target that exists; ends the process for a refused path |
| Server.Server.ComAppe | fsm_transfer.cpp:309-360 | APPE: refused without login or right, not without PASV; the offset is the size of the target; ends the process for a refused path |
| Server.Server.ComRetr | fsm_transfer.cpp:387-479 | RETR: refused without login, PASV, right, regular file or valid offset; ends the process for a refused path |
| Server.Server.ComRest | fsm_transfer.cpp:81-103 | REST sets the offset |
| Server.Server.DiskTurn | disk_thread_pool.cpp:52-66 | A worker takes the oldest task of its queue and rolls the disk state machine, for its descriptor only |
| Server.Server.RunDiskTask | disk_fsm.cpp:34-239 | Rolling the disk state machine changes its own connection as Protocol.RollDisk says, and no other |
| Server.Server.RollDiskTask | disk_fsm.cpp:34-239 | Dispatch of a disk task on the disk map |
| Server.Server.StartDisk | disk_fsm.cpp:45-85 | The three start tasks: a new disk_info, entered only if there is none |
| Server.Server.RunWriteDone | disk_fsm.cpp:102-148 | The next page or chunk, or the end |
| Server.Server.EndDisk | disk_fsm.cpp:134-141 | SESSION_TASK_TRANS_OK and removal from the map |
| Objects.TcpClient.TakeNote | TCP_ctrl_event.cpp:169-259 | The four notifications on the client object, and what they post |
| Objects.TcpClient.TakeData | TCP_data_event.cpp:151-162 | A piece is appended; above the limit the whole buffer is handed over and cleared |
| Objects.TcpClient.EndData | TCP_data_event.cpp:116-122 | The rest is handed over, buffer and data connection cleared |
| Objects.TcpClient.SendData | TCP_data_event.cpp:182-248 | The offset advances, or the entry goes and is acknowledged |
| Objects.TcpClient.SendReply | TCP_ctrl_event.cpp:340-406 | The first reply goes once written; the event is not armed again |
| Objects.TcpClient.CopyData | TCP_client.h:139-144 | The buffer grows by the data |
| Objects.TcpClient.ClearData | TCP_client.h:146-150 | The buffer is empty |
| Objects.TcpClient.ClearDataFd | TCP_client.h:188-208 | Listening and data sockets are closed and their events gone |
| Objects.DiskInfo.GetList | disk_info.h:156-166 | The page is the next 32 lines, the list what is left, the state whether anything is |
| Objects.DiskInfo.OpenDirectory | disk_fsm.cpp:241-253 | The first page of the directory without hidden entries |
| Objects.DiskInfo.ReadFromDisk | disk_info.h:135-139 | The next piece of the file and the position after it |
| Objects.DiskInfo.WriteToDisk | disk_info.h:141-144 | The file overwritten at the position; -1 without a file open for writing |
| Objects.DiskInfo.CloseFileHandle | disk_info.h:146-154 | The handle is closed and stays as it is, so that nothing more is written |
| Shards.Pool.Post | session_manager.cpp:24-39 | The task joins the tasks waiting for its descriptor, at the end; no other descriptor is affected |
| Shards.Pool.Take | disk_thread_pool.cpp:52-58 | The task taken is the oldest waiting for its descriptor; no other descriptor is affected |
| Shards.ForAppend | session_manager.cpp:30-35 | The tasks of one descriptor in a shared queue keep their order |
| FileIndex.GetDirDetail | file_index.cpp:23-73 | The linked list built is the directory without "." and "..", in order |
| FileIndex.ListedUnlessDots | file_index.cpp:41-47 | Each directory entry is listed in its place, unless its name is exactly "." or ".." |
| FileIndex.GetDir | file_index.cpp:75-175 | Walking the list gives the next page and the node where the rest starts |
| FileIndex.PagedListingIsUnpaged | file_index.cpp:89-174 | All pages together are one line per entry that can be examined, in order; every page but the last has 32 lines |
| FileIndex.PageSplits | file_index.cpp:168-172 | A page and the lines of the rest are the lines before it; a page that leaves a rest is full |
| FileIndex.PageFits | common_def.h:114-115 | 32 lines shorter than FILEINFOLEN fit INDEXSIZE with their NUL |
| ConfigParser.ConfigFile.Load | ConfigFile.cpp:66-140 | The parser with its lookahead gives what the lines mean without any, for every text and added to any contents |
| ConfigParser.ConfigFile.ReadValue | ConfigFile.cpp:106-130 | The inner loop finds the value and leaves in nextline what has to be looked at again |
| ConfigParser.ConfigFile.Save | ConfigFile.cpp:52-63 | The printer writes one entry after the other, in the order of the map |
| ConfigParser.ReadAhead | ConfigFile.cpp:110-130 | A line read either continues the value or is looked at again, also at the end of the stream |
| ConfigLaws.NormalForm | ConfigFile.cpp:66-140 | For every text, newline-terminated or not: parsing the printed result of a parse gives the same entries |
| ConfigLaws.RoundTrip | ConfigFile.cpp:52-63 | Parsing what was printed for a printable map gives the map |
| ConfigLaws.RoundTripOnlyPrintable | ConfigFile.cpp:52-140 | A map comes back if and only if it is printable |
| ConfigLaws.ParsedIsPrintable | ConfigFile.cpp:99-136 | Every parsed map is printable |
| ConfigLaws.ReadBack | ConfigFile.cpp:99-136 | Reading what was printed enters the printed entries over those that are there |
| ConfigLaws.MissingNewline | ConfigFile.cpp:110-130 | Leaving out the last newline changes the meaning if and only if the last line is a visible part of an open value |
| ConfigLaws.MissingNewlineExample | ConfigFile.cpp:112-129 | "a = b", then "c" without a newline, is such a text |
| ConfigLaws.LastLine | ConfigFile.cpp:112 | getline at the end of file leaves the last line in place, so it is seen twice |
| ConfigLaws.StateThen | ConfigFile.cpp:78-136 | Parsing goes line by line: what follows is read from where the parser stands, stopped, between entries or in a value |
| ConfigLaws.CutComment | ConfigFile.cpp:93 | A comment starts at the first mark, and all of what is in front of it is kept |
| ConfigLaws.CommentIgnored | ConfigFile.cpp:92-122 | Adding a comment to a line anywhere in a text changes nothing if something visible is in front of it or no value is open |
| ConfigLaws.LastCommentIgnored | ConfigFile.cpp:92-122 | Nor on a last line without a newline |
| ConfigLaws.CommentInValue | ConfigFile.cpp:115-129 | The exception: a blank line ends a value, a line with nothing but a comment does not |
| ConfigLaws.CommentExample | ConfigFile.cpp:93 | "a = b # c" has the entry a = "b" |
| ConfigLaws.SentryStops | ConfigFile.cpp:96 | The line with the sentry and all that follows it are not read |
| ConfigLaws.StrayLine | ConfigFile.cpp:98-100 | Between entries a line without a delimiter means nothing |
| ConfigLaws.DefaultIsSane | ConfigFile.h:67-70 | The laws apply to the default marks |
| Strings.TrimAt | ConfigFile.cpp:43-49 | trim keeps exactly the part between the first and the last character that is no white space |
| Paths.ComCdup | fsm_file.cpp:244-272 | The buffer is cut in place after the last slash before the last component, never at the first character |
| Paths.ChangePathIn | fsm_file.cpp:155-241 | The resolution edits both buffers in place, each call with a shorter argument; it gives the resolved path and completes an absolute argument where it stands |
| Paths.Shaped | fsm_file.cpp:159-240 | Every argument is a chain of "../" and "./" steps and one of eight targets |
| Paths.ChangePathResolves | fsm_file.cpp:155-241 | The argument leads up as often as it says "../" and then to its target |
| Paths.ChangePathOnComponents | fsm_file.cpp:207-240 | On a path of components each of the eight targets: as many components are dropped as the argument climbs, never the first, and the name is added; a path from the root starts there |
| Paths.CdupDir | fsm_file.cpp:256-269 | One step up drops the last component unless it is the only one |
| Paths.PathSession.ComCwd | fsm_file.cpp:33-128 | CWD: new current path, reply code and path shown, with the invariant kept |
| Paths.CwdCodes | fsm_file.cpp:47-118 | CWD answers 250 if and only if the argument resolves to a directory with the root in its path; that path, ended by a slash, is then the current one and PWD shows what the reply quotes; otherwise it answers 550 and stays |
| Paths.CwdRefused | fsm_file.cpp:38-123 | A command that does not start with a space is refused with 500 and changes nothing; an empty one is refused with 504 and leads to the root |
| Paths.PathSession.ComPwd | fsm_file.cpp:131-152 | PWD shows the current path from the last slash of the root on |
| Paths.KeepsSlash | fsm_file.cpp:82-99 | CWD keeps a current path that ends in a slash and contains the root |
| Paths.CwdLexical | fsm_file.cpp:57-99 | The new current path starts with the root if and only if the argument does not climb above the root and name a directory that contains the root but does not lead back |
| Paths.StaysUnderRoot | fsm_file.cpp:33-128 | Over any sequence of CWDs that do not climb and then name something the current path starts with the root |
| Paths.ClimbsOut | fsm_file.cpp:82 | "../a/b/" from the root "/a/b/" leads to "/a/a/b/" |
| Paths.PwdThenChangePath | fsm_file.cpp:169-185 | The path PWD shows resolves to the current path from anywhere, unless it is "/../" |
| Paths.PwdThenCwd | fsm_file.cpp:99-107 | CWD to the path PWD shows stays where it is and shows the same path, if and only if that is not "/../" or the root is "/" |
| Paths.DotsDirectory | fsm_file.cpp:169-185 | CWD "/.." makes "/../" the path shown, and CWD to that path leads to the root instead |
| Framing.CommandBuffer.Read | finite_state_machine.cpp:134-240 | One READ: what is executed and what stays in the buffer |
| Framing.CommandBuffer.Cat | session.h:186-192 | The fragment is appended in place |
| Framing.CommandBuffer.Drop | session.h:214-218 | The first characters are moved out in place |
| Framing.FramingConserves | finite_state_machine.cpp:195-240 | For every fragmentation of a stream of lines: the lines executed are its first ones, at most one per READ, and with the buffer they are the bytes received |
| Framing.ReadStep | session.h:199-213 | One more READ keeps that; it fails if and only if it leaves no line end in the buffer |
| Framing.FramedLine | finite_state_machine.cpp:218-240 | A READ in its four cases |
| Framing.FramedText | finite_state_machine.cpp:134-240 | A READ of any text at all: the line ends in front and the token are executed, and what is dropped goes up to the first CR LF |
| Framing.HasParts | finite_state_machine.cpp:195-217 | Every text has that shape |
| Framing.BlankLineFirst | finite_state_machine.cpp:218-240 | So a blank line in front of a command that more follows is executed with it, and the command stays to be executed again |
| Pasv227.RunPasv | fsm_transfer.cpp:137-209 | The reply is assembled as section 4.2 of RFC 959 has it, or 502 for a port outside the range |
| Pasv227.ReplyDecodes | fsm_transfer.cpp:154-192 | A client reads back the address and the port if and only if the port is below 256000 |
| Pasv227.ReplyIsOneLine | fsm_transfer.cpp:147-192 | The reply starts with the code 227 and its only line end is the CR LF that ends it |
| Pasv227.PortFits | fsm_transfer.cpp:178-191 | Both numbers of a TCP port fit PORT_PART_LEN |
| Pasv227.QuadFits | fsm_transfer.cpp:158-170 | A dotted quad fits the address buffers |
| UserList.Scan | user_manager.h:42-130 | For every non-empty list of records the decoded users are the list, and the loop stops with read_len 0 |
| UserList.UserAt | user_manager.h:53-123 | The name, password, upload, download and delete rights of each user are the five fields of its own line, in this order |
| UserList.SaysTrueIff | user_manager.h:75 | A right is given exactly when its field starts with "true" in any case |
| UserList.ShippedLine | conf/userlist:2 | The line "test1 123 true false false" gives a user who may upload and do nothing else |
| UserList.TextIsUnambiguous | user_manager.h:42-130 | A file is the text of one list of records only, so what Scan decodes is determined by the file |
| UserList.NextField | user_manager.h:46-56 | A field is found and the offset and what is left still add up to the length |

## Left out

- Atomicity: queue operations and each roll of a state machine are single steps. The workers hold a mutex while rolling but producers do not lock; data races are outside the model.
- Impolite clients: connecting before the transfer command is handled, uploading before the 150, closing during a download, a second transfer during the first. The gates, the buffer bound and the order of replies still cover them.
- Hard failures of read and write, short writes to the disk, files that cannot be opened, and the stale errno test after a read of zero bytes.
- Server.Server.OnNotify: the free port search is a parameter; that the search ends is not claimed. After a null pointer the memory of the process is not modelled.
- Server.Server.ComUser: the answers of the comparisons and of the user list are part of the command, not computed from the name.
- Server.Server.ComPass: whether the password matches is part of the command; the password a session holds before USER finds an account is whatever is in memory.
- Server.Server.ComStor: the file name it sets is not in the state, since SIZE may overwrite it before the data connection is accepted; what the disk holds when a start task is handled is a parameter.
- Server.Server.ComAppe: the file name is not in the state, as for STOR.
- Server.Server.ComRetr: the file name and the length shown in the 150 are not in the state, as for STOR.
- Server.Server.RunCommand: the comparison of the verb with its text is not modelled, and commands that do not touch the transfer state are one case. The texts of replies are reduced to their codes, except for PASV, CWD and PWD.
- Guarantees.RepliesInOrder: order and completeness only; when a reply is not delivered, is the matter of Connections.LeftBehindIff.
- Objects.TcpClient.CopyData: the upload buffer is a sequence with its bound, not an array; freeing and zeroing of buffers are not modelled.
- Objects.DiskInfo.ReadFromDisk: file handles are abstract; closing one twice and reuse of descriptor numbers are not modelled.
- FileIndex.GetDir: the text of a line is what lstat gives; freeing the nodes is not modelled.
- Paths.ChangePathIn: buffers are as long as they need to be; what strncpy and strncat do beyond PATHSIZE is not modelled. The file system is a function from paths to kinds, without links. For an absolute path after a step the program answers with a local buffer of a call that is over; the model answers with the path that was in it.
- ConfigParser.ConfigFile.Load: delimiter and comment mark are single characters that are no white space and not in the sentry, as in the default; the sentry may be any word without white space, or empty. The typed read and add templates are not modelled.
- ConfigParser.ConfigFile.Save: the order in which the map is walked is a parameter, so the laws hold for every order.
- Framing.CommandBuffer.Read: fragments contain no NUL and the buffer stays below COMMANDSIZE; dispatch on the verb is in Server.
- UserList.Scan: one buffer, and fields without spaces, newlines or NULs within USERLEN and PASSLEN; the map is keyed by pointer in the program, so only the sequence of records is modelled.
- MD5, logging, the idle sweep, QUIT and the disk task DATA_TASK_DELE, which nothing posts.
