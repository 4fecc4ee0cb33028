/**
 One control connection as seen through the queues that join its three threads: the event loop
 (TCP_ctrl_event.cpp, TCP_data_event.cpp), its session worker (finite_state_machine.cpp,
 fsm_transfer.cpp) and its disk worker (disk_fsm.cpp).  `Step` is what one event does to it.
 */
module Protocol {
  import opened Types
  import FileIndex

  // ---------------------------------------------------------------- messages

  /** What change_path and stat make of the argument of STOR, APPE or RETR; Refused is the NULL of change_path. */
  datatype Target = Refused | Missing | Directory(size: nat) | RegularFile(size: nat)

  /** The entry that the user list has for the name given to USER, and whether its own name is Anonymous. */
  datatype UserEntry = UserEntry(rights: Rights, anonymous: bool)

  datatype Rights = Rights(upload: bool, download: bool)

  /** A complete command line; the answers stat and the user list give to it are part of it. */
  datatype Command =
    | User(anonymous: bool, builtin: bool, entry: Option<UserEntry>)  // is it Anonymous, is it BGIShare
    | Pass(matches: bool)
    | Pasv
    | List
    | Stor(target: Target)
    | Appe(target: Target)
    | Retr(target: Target)
    | Rest(offset: int)
    | Info(reply: InfoReply)

  /** What a READ leaves in the command buffer: no line end at all, the start of one, or a line to execute. */
  datatype Line = Unended | Partial | Whole(command: Command)

  /** Replies of the commands that do not touch the transfer state (CWD, PWD, SIZE, TYPE, SYST, FEAT, BAD). */
  datatype InfoReply = Type200 | Feat211 | Size213 | Syst215 | Cwd250 | Pwd257
    | Unknown500 | Bad501 | Type504 | Failed550

  function InfoCode(r: InfoReply): nat {
    match r
    case Type200 => 200 case Feat211 => 211 case Size213 => 213 case Syst215 => 215
    case Cwd250 => 250 case Pwd257 => 257 case Unknown500 => 500 case Bad501 => 501
    case Type504 => 504 case Failed550 => 550
  }

  /** Notifications written to the socketpair for the event loop. */
  datatype Note = NoteReply(code: nat) | NotePasv | NoteTransOk | NoteData(chunk: Bytes)

  /** Tasks for the session worker. */
  datatype STask =
    | TaskAccept
    | TaskRead(line: Line)
    | TaskPasv(port: int)
    | TaskDataAccept
    | TaskStorStart
    | TaskTransOk
    | TaskGone

  /** Tasks for the disk worker. */
  datatype DTask =
    | DiskIndexStart
    | DiskRetrStart(offset: int)
    | DiskStorStart(offset: int)
    | DiskStoring(chunk: Bytes)
    | DiskStorOk(chunk: Bytes)
    | DiskWriteDone

  // ---------------------------------------------------------------- state

  /** An entry of data_write_q: the bytes before `offset` are already on the socket. */
  datatype OutBuf = OutBuf(chunk: Bytes, offset: nat)

  datatype ClientState = ClientState(
    writeQ: seq<nat>,        // write_q, one reply code per entry
    writeArmed: bool,        // ev_write is pending
    dataQ: seq<OutBuf>,      // data_write_q
    dataArmed: bool,         // event_data_write is pending
    listening: bool,         // listen_fd != -1
    connected: bool,         // data_fd != -1, event_data_read is pending
    buf: Bytes)              // file_buffer[..buf_len]

  const NEW_CLIENT := ClientState([], false, [], false, false, false, [])

  datatype DataAction = Waiting | PasvOk | Listing | Storing | Retrieving | IndexDownload | FileDownload

  /** username, as far as PASS tells names apart. */
  datatype Name = Unnamed | Anonymous | Named

  datatype SessionState = SessionState(
    login: bool,
    rights: Rights,
    name: Name,
    info: Option<Rights>,    // user_info, NULL until USER finds an entry
    action: DataAction,
    rest: int)

  const NEW_SESSION := SessionState(false, Rights(false, false), Unnamed, None, Waiting, 0)

  datatype DiskAction = IndexLoading | IndexFinish | RetrLoading | RetrFinish | StorStart | StorBusy | StorDone

  /** The open file or the rest of the directory a disk_info works on; a closed handle stays in it. */
  datatype Source =
    | Entries(rest: seq<FileIndex.Entry>)
    | Reading(file: Bytes, pos: nat)
    | Writing(file: Bytes, pos: nat)
    | Closed

  datatype DiskState = DiskState(action: DiskAction, source: Source)

  datatype Core = Core(
    client: Option<ClientState>,
    session: Option<SessionState>,
    disk: Option<DiskState>,
    notes: seq<Note>,       // its notifications in the socketpair, oldest first
    stasks: seq<STask>,     // its tasks in its session worker's queue
    dtasks: seq<DTask>)     // its tasks in its disk worker's queue

  const NEW_CORE := Core(None, None, None, [], [], [])

  datatype Config = Config(startPort: int, endPort: int)

  // ---------------------------------------------------------------- session worker

  /** What handling one task leaves behind: the session and what it posted. */
  datatype SEffect = SEffect(session: Option<SessionState>, notes: seq<Note>, dtasks: seq<DTask>)

  function Answer(s: SessionState, code: nat): SEffect {
    SEffect(Some(s), [NoteReply(code)], [])
  }

  function Silent(s: SessionState): SEffect {
    SEffect(Some(s), [], [])
  }

  /** The command follows a null pointer: a refused path is copied, the rights of no user_info are read. */
  predicate Crashes(s: SessionState, c: Command) {
    match c
    case Pass(matches) => s.name.Named? && matches && s.info.None?
    case Stor(target) => s.login && s.action == PasvOk && s.rights.upload && target.Refused?
    case Appe(target) => s.login && s.rights.upload && target.Refused?
    case Retr(target) => s.login && s.action == PasvOk && s.rights.download && target.Refused?
    case _ => false
  }

  function Execute(s: SessionState, c: Command): SEffect
    requires !Crashes(s, c)
  {
    match c
    case User(anonymous, builtin, entry) =>
      if builtin then Answer(s.(name := Named), 331)
      else (match entry
        case Some(u) => Answer(s.(name := if u.anonymous then Anonymous else Named, info := Some(u.rights)), 331)
        case None => Answer(if anonymous then s.(name := Anonymous) else s, 530))
    case Pass(matches) =>
      if s.name.Anonymous? then Answer(s.(login := true), 230)
      else if s.name.Named? && matches then Answer(s.(login := true, rights := s.info.value), 230)
      else Answer(s, 530)
    case Pasv => if !s.login then Answer(s, 530) else SEffect(Some(s), [NotePasv], [])
    case List =>
      if !s.login then Answer(s, 530)
      else if s.action != PasvOk then Answer(s, 425)
      else Silent(s.(action := Listing))
    case Stor(target) =>
      if !s.login then Answer(s, 530)
      else if s.action != PasvOk then Answer(s, 425)
      else if !s.rights.upload || !target.Missing? then Answer(s, 550)
      else Silent(s.(action := Storing))
    case Appe(target) =>
      if !s.login then Answer(s, 530)
      else if !s.rights.upload then Answer(s, 550)
      else Silent(s.(rest := if target.Missing? then 0 else target.size, action := Storing))
    case Retr(target) =>
      if !s.login then Answer(s, 530)
      else if s.action != PasvOk then Answer(s, 425)
      else if !s.rights.download || !target.RegularFile? then Answer(s, 550)
      else if s.rest != 0 && target.size < s.rest then Answer(s, 554)
      else Silent(s.(action := Retrieving))
    case Rest(offset) => Answer(s.(rest := offset), 350)
    case Info(reply) => Answer(s, InfoCode(reply))
  }

  /** SESSION_TASK_DATA_ACCEPT: the client has connected the data socket. */
  function StartTransfer(s: SessionState): SEffect {
    match s.action
    case Listing => SEffect(Some(s.(action := IndexDownload)), [NoteReply(150)], [DiskIndexStart])
    case Storing => SEffect(Some(s), [], [DiskStorStart(s.rest)])
    case Retrieving => SEffect(Some(s.(action := FileDownload)), [NoteReply(150)], [DiskRetrStart(s.rest)])
    case _ => Silent(s)
  }

  /** The task ends the process: its READ leaves no line end, whose NULL is copied, or its command crashes. */
  predicate Fatal(session: Option<SessionState>, t: STask) {
    session.Some? && t.TaskRead? && (t.line.Unended? || (t.line.Whole? && Crashes(session.value, t.line.command)))
  }

  function RollSession(cfg: Config, session: Option<SessionState>, t: STask): SEffect
    requires !Fatal(session, t)
  {
    if t.TaskAccept? then
      // the map insertion keeps an older session of the same descriptor
      SEffect(Some(if session.Some? then session.value else NEW_SESSION), [NoteReply(220)], [])
    else if session.None? then SEffect(None, [], [])
    else
      var s := session.value;
      match t
      case TaskRead(Whole(c)) => Execute(s, c)
      case TaskPasv(port) =>
        if cfg.startPort < port < cfg.endPort then Answer(s.(action := PasvOk), 227) else Answer(s, 502)
      case TaskDataAccept => StartTransfer(s)
      case TaskStorStart => Answer(s, 150)
      case TaskTransOk => SEffect(Some(s.(action := Waiting)), [NoteTransOk], [])
      case _ => Silent(s)
  }

  // ---------------------------------------------------------------- disk worker

  /** What the disk holds for this step: the directory or file a start task opens, and how much a read may return. */
  datatype Oracle = Oracle(dir: seq<FileIndex.DirEnt>, file: Bytes, count: nat)

  datatype DEffect = DEffect(disk: Option<DiskState>, notes: seq<Note>, stasks: seq<STask>)

  /** disk_task::get_rest_size returns the long offset as a 32-bit int. */
  function ToInt32(offset: int): int {
    (offset + 0x8000_0000) % 0x1_0000_0000 - 0x8000_0000
  }

  /** lseek leaves the position at 0 when the offset is negative. */
  function SeekPos(offset: int): nat {
    if offset < 0 then 0 else offset
  }

  function Min(a: nat, b: nat): nat {
    if a < b then a else b
  }

  /** read() returns between one byte and a buffer full, or 0 at the end of the file. */
  function ReadLen(file: Bytes, pos: nat, count: nat): (n: nat)
    ensures pos < |file| ==> 0 < n <= |file| - pos
    ensures n <= FILEBUFSIZE
    ensures pos >= |file| ==> n == 0
  {
    if pos >= |file| then 0
    else if count == 0 then 1
    else Min(count, Min(FILEBUFSIZE, |file| - pos))
  }

  function Tail(file: Bytes, pos: nat): Bytes {
    if pos <= |file| then file[pos..] else []
  }

  /** A gap between the end of the file and the position reads as zeros. */
  function Pad(file: Bytes, pos: nat): (r: Bytes)
    ensures pos <= |r|
  {
    if |file| < pos then file + seq(pos - |file|, _ => 0) else file
  }

  function Splice(file: Bytes, pos: nat, data: Bytes): Bytes
    requires pos <= |file|
  {
    file[..pos] + data + Tail(file, pos + |data|)
  }

  /** The file after write() of `data` at `pos`; writing nothing does not even fill the gap. */
  function WriteAt(file: Bytes, pos: nat, data: Bytes): Bytes {
    if data == [] then file else Splice(Pad(file, pos), pos, data)
  }

  function ReadChunk(file: Bytes, pos: nat, count: nat): (DiskState, Bytes) {
    var n := ReadLen(file, pos, count);
    (DiskState(if n > 0 then RetrLoading else RetrFinish, Reading(file, pos + n)),
     if n > 0 then file[pos..pos + n] else [])
  }

  function ListPage(entries: seq<FileIndex.Entry>): (DiskState, Bytes) {
    var p := FileIndex.TakePage(entries, PAGE_LINES);
    (DiskState(if p.rest != [] then IndexLoading else IndexFinish, Entries(p.rest)), Concat(p.lines))
  }

  /** The map insertion of add_disk keeps an older disk_info of the same descriptor. */
  function AddDisk(disk: Option<DiskState>, d: DiskState): Option<DiskState> {
    if disk.Some? then disk else Some(d)
  }

  /** run_stor_loading: the result of write(), -1 on a handle that is not open for writing. */
  function WriteChunk(d: DiskState, chunk: Bytes): (DiskState, int) {
    match d.source
    case Writing(file, pos) =>
      (DiskState(if chunk == [] then StorBusy else StorDone, Writing(WriteAt(file, pos, chunk), pos + |chunk|)),
        |chunk|)
    case _ => (d.(action := StorBusy), -1)
  }

  /** close_file_handle; a listing has no handle. */
  function CloseHandle(d: DiskState): DiskState {
    if d.source.Entries? then d else d.(source := Closed)
  }

  /** DATA_TASK_WRITE_DONE: the last chunk is on the socket; send the next one or report the end. */
  function NextChunk(d: DiskState, count: nat): DEffect {
    match (d.action, d.source)
    case (IndexLoading, Entries(rest)) =>
      var (d', page) := ListPage(rest);
      DEffect(Some(d'), [NoteData(page)], [])
    case (RetrLoading, Reading(file, pos)) =>
      var (d', chunk) := ReadChunk(file, pos, count);
      DEffect(Some(d'), [NoteData(chunk)], [])
    case (IndexFinish, _) => DEffect(None, [], [TaskTransOk])
    case (RetrFinish, _) => DEffect(None, [], [TaskTransOk])
    case _ => DEffect(Some(d), [], [])
  }

  function RollDisk(disk: Option<DiskState>, t: DTask, o: Oracle): DEffect {
    match t
    case DiskIndexStart =>
      var (d, page) := ListPage(FileIndex.Listable(o.dir));
      DEffect(AddDisk(disk, d), [NoteData(page)], [])
    case DiskRetrStart(offset) =>
      var (d, chunk) := ReadChunk(o.file, SeekPos(ToInt32(offset)), o.count);
      DEffect(AddDisk(disk, d), [NoteData(chunk)], [])
    case DiskStorStart(offset) =>
      DEffect(AddDisk(disk, DiskState(StorStart, Writing(o.file, SeekPos(ToInt32(offset))))), [], [TaskStorStart])
    case _ =>
      if disk.None? then DEffect(None, [], []) else RollOpenDisk(disk.value, t, o)
  }

  /** The tasks that need a disk_info of the descriptor. */
  function RollOpenDisk(d: DiskState, t: DTask, o: Oracle): DEffect {
    match t
    case DiskWriteDone => NextChunk(d, o.count)
    case DiskStoring(chunk) => DEffect(Some(WriteChunk(d, chunk).0), [], [])
    case DiskStorOk(chunk) =>
      var (d', written) := WriteChunk(d, chunk);
      // a final write of zero bytes is logged as "nothing was written" and ends the matter
      if written > 0 then DEffect(None, [], [TaskTransOk]) else DEffect(Some(CloseHandle(d')), [], [])
    case _ => DEffect(Some(d), [], [])
  }

  // ---------------------------------------------------------------- event loop

  function CloseData(c: ClientState): ClientState {
    c.(listening := false, connected := false, dataArmed := false)
  }

  /** on_notify for a client that is still connected; `port` is what the port search ended with. */
  function HandleNote(c: ClientState, n: Note, port: int): (ClientState, seq<STask>) {
    match n
    case NoteReply(code) => (c.(writeQ := c.writeQ + [code], writeArmed := true), [])
    case NotePasv => if port == -1 then (c, []) else (c.(listening := true), [TaskPasv(port)])
    case NoteTransOk => (CloseData(c.(writeQ := c.writeQ + [226], writeArmed := true)), [])
    case NoteData(chunk) => (c.(dataQ := c.dataQ + [OutBuf(chunk, 0)], dataArmed := true), [])
  }

  /** data_read of a non-empty piece: buffer it and flush the buffer once it is nearly full.
      The exit for a buffer that is over the limit already is never taken (Guarantees.BufferBounded). */
  function HandleData(c: ClientState, data: Bytes): (ClientState, seq<DTask>) {
    var buf := c.buf + data;
    if |buf| <= FILEBUFWRITESIZE then (c.(buf := buf), [])
    else (c.(buf := []), [DiskStoring(buf)])
  }

  /** data_write when write() accepts `count` bytes, or as many as there are. */
  function HandleDrain(c: ClientState, count: nat): (ClientState, seq<DTask>) {
    if c.dataQ == [] then (c.(dataArmed := false), [])
    else
      var b := c.dataQ[0];
      if b.offset + count < |b.chunk|
      then (c.(dataQ := [OutBuf(b.chunk, b.offset + count)] + c.dataQ[1..], dataArmed := true), [])
      else (c.(dataQ := c.dataQ[1..], dataArmed := false), [DiskWriteDone])
  }

  /** on_write: the first reply leaves the queue once all of it is written, and the event is not armed again. */
  function HandleWrite(c: ClientState, whole: bool): ClientState {
    if c.writeQ == [] then c.(writeArmed := false)
    else if whole then c.(writeQ := c.writeQ[1..], writeArmed := false)
    else c
  }

  // ---------------------------------------------------------------- steps

  datatype Event =
    | Accept                          // on_accept
    | Input(line: Line)               // on_read of some bytes; what they leave in the command buffer
    | HangUp                          // on_read of zero bytes
    | Notify(port: int)               // on_notify
    | Connect                         // data_accept
    | Receive(data: Bytes)            // data_read of some bytes
    | EndOfData                       // data_read of zero bytes
    | Drain(count: nat)               // data_write
    | Write(whole: bool)              // on_write
    | SessionStep                     // the session worker takes a task
    | DiskStep(oracle: Oracle)        // the disk worker takes a task

  /**
   When the event can happen: its libevent event is armed or its queue is not empty, and it does not end
   the process.
   */
  predicate Enabled(c: Core, e: Event) {
    match e
    case Accept => c.client.None?
    case Input(_) => c.client.Some?
    case HangUp => c.client.Some?
    case Notify(_) => c.client.Some? && c.notes != []
    case Connect => c.client.Some? && c.client.value.listening
    case Receive(data) => c.client.Some? && c.client.value.connected && 0 < |data| <= DATASIZE
    case EndOfData => c.client.Some? && c.client.value.connected
    case Drain(_) => c.client.Some? && c.client.value.connected && c.client.value.dataArmed
    case Write(_) => c.client.Some? && c.client.value.writeArmed
    case SessionStep => c.stasks != [] && !Fatal(c.session, c.stasks[0])
    case DiskStep(_) => c.dtasks != []
  }

  /** The next notification or session task of the connection follows a null pointer and ends the process. */
  predicate Breaking(c: Core) {
    || (c.notes != [] && c.client.None?)
    || (c.stasks != [] && Fatal(c.session, c.stasks[0]))
  }

  function Step(cfg: Config, c: Core, e: Event): Core
    requires Enabled(c, e)
  {
    match e
    case Accept => c.(client := Some(NEW_CLIENT), stasks := c.stasks + [TaskAccept])
    case Input(line) => c.(stasks := c.stasks + [TaskRead(line)])
    case HangUp => c.(client := None, stasks := c.stasks + [TaskGone])
    case Notify(port) =>
      var (cl, posts) := HandleNote(c.client.value, c.notes[0], port);
      c.(client := Some(cl), notes := c.notes[1..], stasks := c.stasks + posts)
    case Connect =>
      c.(client := Some(c.client.value.(connected := true, dataArmed := false)), stasks := c.stasks + [TaskDataAccept])
    case Receive(data) =>
      var (cl, posts) := HandleData(c.client.value, data);
      c.(client := Some(cl), dtasks := c.dtasks + posts)
    case EndOfData =>
      c.(client := Some(CloseData(c.client.value.(buf := []))), dtasks := c.dtasks + [DiskStorOk(c.client.value.buf)])
    case Drain(count) =>
      var (cl, posts) := HandleDrain(c.client.value, count);
      c.(client := Some(cl), dtasks := c.dtasks + posts)
    case Write(whole) => c.(client := Some(HandleWrite(c.client.value, whole)))
    case SessionStep =>
      var r := RollSession(cfg, c.session, c.stasks[0]);
      c.(session := r.session, stasks := c.stasks[1..], notes := c.notes + r.notes, dtasks := c.dtasks + r.dtasks)
    case DiskStep(o) =>
      var r := RollDisk(c.disk, c.dtasks[0], o);
      c.(disk := r.disk, dtasks := c.dtasks[1..], notes := c.notes + r.notes, stasks := c.stasks + r.stasks)
  }
}
