/** Whole runs of one connection, with the record a specification needs of what happened in them. */
module History {
  import opened Types
  import opened Protocol
  import FileIndex

  datatype Kind = KindList | KindStor | KindRetr

  /** Facts about the gates, in the order in which the session worker established them. */
  datatype Fact =
    | Prepared                                          // a PASV was answered with 227
    | Accepted(kind: Kind, login: bool, right: bool)  // a transfer command passed its checks
    | Started(kind: Kind)                               // the start task was posted to the disk worker

  datatype Mode = NoTransfer | Download | Upload

  /** The transfer that was started last. */
  datatype Flow = Flow(
    mode: Mode,
    greeted: bool,              // its 150 is in write_q or already sent
    wanted: Bytes,              // download: what the client should get
    sent: Bytes,                // download: what has been written to the data socket
    before: Bytes, start: nat,  // upload: the file as it was opened, and the offset
    received: Bytes,            // upload: what has been read from the data socket
    written: Bytes,             // upload: what has been written to the file
    file: Bytes)                // upload: the contents of the file

  /** Where the login of a session comes from, since its worker handled the last accept task. */
  datatype Access = Access(
    own: bool,                  // a PASS has been answered with 230 since then
    kept: bool)                 // the descriptor had a logged-in session at that task already

  datatype Hist = Hist(
    flow: Flow,
    posted: seq<nat>,           // what the socketpair held for it when it was accepted, and every reply posted since
    replies: seq<nat>,          // every reply queued on the control channel
    delivered: seq<nat>,        // the replies that have been sent completely
    access: Access,
    facts: seq<Fact>)

  const NEW_HIST := Hist(Flow(NoTransfer, false, [], [], [], 0, [], [], []), [], [], [], Access(false, false), [])

  datatype Conn = Conn(core: Core, hist: Hist)

  const NEW_CONN := Conn(NEW_CORE, NEW_HIST)

  function KindOf(a: DataAction): Option<Kind> {
    match a
    case Listing => Some(KindList)
    case Storing => Some(KindStor)
    case Retrieving => Some(KindRetr)
    case _ => None
  }

  /** A transfer command that passes its checks answers nothing; the 150 comes later. */
  function AcceptedBy(s: SessionState, c: Command): seq<Fact> {
    match c
    case List => [Accepted(KindList, s.login, true)]
    case Stor(_) => [Accepted(KindStor, s.login, s.rights.upload)]
    case Appe(_) => [Accepted(KindStor, s.login, s.rights.upload)]
    case Retr(_) => [Accepted(KindRetr, s.login, s.rights.download)]
    case _ => []
  }

  /** What handling one session task adds to the facts. */
  function FactsOf(cfg: Config, s: SessionState, t: STask): seq<Fact>
    requires !Fatal(Some(s), t)
  {
    var notes := RollSession(cfg, Some(s), t).notes;
    match t
    case TaskPasv(_) => if notes == [NoteReply(227)] then [Prepared] else []
    case TaskRead(Whole(c)) => if notes == [] then AcceptedBy(s, c) else []
    case TaskDataAccept => if KindOf(s.action).Some? then [Started(KindOf(s.action).value)] else []
    case _ => []
  }

  function RecordSession(f: Flow, session: Option<SessionState>, t: STask): Flow {
    if session.Some? && t.TaskDataAccept? && KindOf(session.value.action).Some?
    then f.(mode := if session.value.action.Storing? then Upload else Download, greeted := false)
    else f
  }

  function RecordDisk(f: Flow, disk: Option<DiskState>, t: DTask, o: Oracle): Flow {
    match t
    case DiskIndexStart => f.(wanted := FileIndex.ListingText(FileIndex.Listable(o.dir)), sent := [])
    case DiskRetrStart(offset) => f.(wanted := Tail(o.file, SeekPos(ToInt32(offset))), sent := [])
    case DiskStorStart(offset) =>
      f.(before := o.file, start := SeekPos(ToInt32(offset)), file := o.file, received := [], written := [])
    case DiskStoring(chunk) => RecordWrite(f, disk, chunk)
    case DiskStorOk(chunk) => RecordWrite(f, disk, chunk)
    case DiskWriteDone => f
  }

  function RecordWrite(f: Flow, disk: Option<DiskState>, chunk: Bytes): Flow {
    if disk.Some? && disk.value.source.Writing?
    then f.(written := f.written + chunk, file := WriteAt(disk.value.source.file, disk.value.source.pos, chunk))
    else f
  }

  function RecordDrain(f: Flow, c: ClientState, count: nat): Flow {
    if c.dataQ == [] then f
    else
      var b := c.dataQ[0];
      f.(sent := f.sent + b.chunk[Min(b.offset, |b.chunk|)..Min(b.offset + count, |b.chunk|)])
  }

  function RecordFlow(c: Core, f: Flow, e: Event): Flow
    requires Enabled(c, e)
  {
    match e
    case Notify(_) => f.(greeted := f.greeted || c.notes[0] == NoteReply(150))
    case Connect => f.(mode := NoTransfer, greeted := false)
    case Receive(data) => f.(received := f.received + data)
    case Drain(count) => RecordDrain(f, c.client.value, count)
    case SessionStep => RecordSession(f, c.session, c.stasks[0])
    case DiskStep(o) => RecordDisk(f, c.disk, c.dtasks[0], o)
    case _ => f
  }

  function CodeOf(n: Note): seq<nat> {
    match n
    case NoteReply(code) => [code]
    case NoteTransOk => [226]
    case _ => []
  }

  function Codes(notes: seq<Note>): seq<nat> {
    if notes == [] then [] else CodeOf(notes[0]) + Codes(notes[1..])
  }

  /** A new client of the descriptor gets what the socketpair still holds for the former one. */
  function RecordPosted(cfg: Config, c: Core, ps: seq<nat>, e: Event): seq<nat>
    requires Enabled(c, e)
  {
    if e.Accept? then Codes(c.notes)
    else if e.SessionStep? then ps + Codes(RollSession(cfg, c.session, c.stasks[0]).notes)
    else ps
  }

  function RecordReplies(c: Core, rs: seq<nat>, e: Event): seq<nat>
    requires Enabled(c, e)
  {
    if e.Accept? then [] else if e.Notify? then rs + CodeOf(c.notes[0]) else rs
  }

  function RecordDelivered(c: Core, rs: seq<nat>, e: Event): seq<nat>
    requires Enabled(c, e)
  {
    if e.Accept? then []
    else if e.Write? && e.whole && c.client.value.writeQ != [] then rs + [c.client.value.writeQ[0]]
    else rs
  }

  function RecordAccess(cfg: Config, c: Core, a: Access, e: Event): Access
    requires Enabled(c, e)
  {
    if !e.SessionStep? then a
    else match c.stasks[0]
      case TaskAccept => Access(false, c.session.Some? && c.session.value.login)
      case TaskRead(Whole(Pass(_))) =>
        if RollSession(cfg, c.session, c.stasks[0]).notes == [NoteReply(230)] then a.(own := true) else a
      case _ => a
  }

  function RecordFacts(cfg: Config, c: Core, facts: seq<Fact>, e: Event): seq<Fact>
    requires Enabled(c, e)
  {
    if e.SessionStep? && c.session.Some? then facts + FactsOf(cfg, c.session.value, c.stasks[0]) else facts
  }

  function StepConn(cfg: Config, c: Conn, e: Event): Conn
    requires Enabled(c.core, e)
  {
    Conn(Step(cfg, c.core, e),
         Hist(RecordFlow(c.core, c.hist.flow, e), RecordPosted(cfg, c.core, c.hist.posted, e),
              RecordReplies(c.core, c.hist.replies, e), RecordDelivered(c.core, c.hist.delivered, e),
              RecordAccess(cfg, c.core, c.hist.access, e), RecordFacts(cfg, c.core, c.hist.facts, e)))
  }

  // ---------------------------------------------------------------- runs

  /** A run from the start in which every event is enabled when it happens. */
  predicate Run(cfg: Config, es: seq<Event>)
    decreases |es|, 0
  {
    es == [] || (Run(cfg, es[..|es| - 1]) && Enabled(After(cfg, es[..|es| - 1]).core, es[|es| - 1]))
  }

  /** Where a run ends. */
  function After(cfg: Config, es: seq<Event>): Conn
    requires Run(cfg, es)
    decreases |es|, 1
  {
    if es == [] then NEW_CONN else StepConn(cfg, After(cfg, es[..|es| - 1]), es[|es| - 1])
  }

  lemma RunSnoc(cfg: Config, es: seq<Event>, e: Event)
    requires Run(cfg, es) && Enabled(After(cfg, es).core, e)
    ensures Run(cfg, es + [e]) && After(cfg, es + [e]) == StepConn(cfg, After(cfg, es), e)
  {
    assert (es + [e])[..|es|] == es;
  }
}
