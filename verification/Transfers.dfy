/**
 The transfer protocol: in every run with one transfer at a time, exactly one token of a download is
 in one of the queues, and the bytes sent, in flight and still to be read are what the client asked for.
 */
module Transfers {
  import opened Types
  import opened Protocol
  import opened History
  import opened Gates
  import opened Replies
  import FileIndex

  // ---------------------------------------------------------------- tokens

  /** Notifications that carry a transfer, as opposed to replies. */
  function DataNotes(notes: seq<Note>): seq<Note> {
    if notes == [] then []
    else (if notes[0].NoteReply? then [] else [notes[0]]) + DataNotes(notes[1..])
  }

  predicate Carries(t: STask) {
    t.TaskPasv? || t.TaskDataAccept? || t.TaskStorStart? || t.TaskTransOk?
  }

  /** Session tasks that carry a transfer, as opposed to command lines. */
  function DataTasks(ts: seq<STask>): seq<STask> {
    if ts == [] then [] else (if Carries(ts[0]) then [ts[0]] else []) + DataTasks(ts[1..])
  }

  lemma {:induction false} DataNotesAppend(a: seq<Note>, b: seq<Note>)
    ensures DataNotes(a + b) == DataNotes(a) + DataNotes(b)
  {
    if a == [] {
      assert a + b == b;
    } else {
      DataNotesAppend(a[1..], b);
      HeadTail(a, b);
      var head := if a[0].NoteReply? then [] else [a[0]];
      Assoc(head, DataNotes(a[1..]), DataNotes(b));
    }
  }
  lemma {:induction false} DataTasksAppend(a: seq<STask>, b: seq<STask>)
    ensures DataTasks(a + b) == DataTasks(a) + DataTasks(b)
  {
    if a == [] {
      assert a + b == b;
    } else {
      DataTasksAppend(a[1..], b);
      HeadTail(a, b);
      var head := if Carries(a[0]) then [a[0]] else [];
      Assoc(head, DataTasks(a[1..]), DataTasks(b));
    }
  }
  lemma {:induction false} DataNotesMember(notes: seq<Note>, n: Note)
    ensures n in DataNotes(notes) <==> n in notes && !n.NoteReply?
  {
    if notes != [] {
      DataNotesMember(notes[1..], n);
      assert notes == [notes[0]] + notes[1..];
    }
  }

  /** What is in the four queues that carry a transfer. */
  datatype Tokens = Tokens(notes: seq<Note>, stasks: seq<STask>, dtasks: seq<DTask>, queue: seq<OutBuf>)

  const NO_TOKENS := Tokens([], [], [], [])

  function Client(c: Core): ClientState {
    if c.client.Some? then c.client.value else NEW_CLIENT
  }

  function TokensOf(c: Core): Tokens {
    Tokens(DataNotes(c.notes), DataTasks(c.stasks), c.dtasks, Client(c).dataQ)
  }

  // ---------------------------------------------------------------- the client's side of the bargain

  /** No transfer is under way. */
  predicate Free(c: Core) {
    TokensOf(c) == NO_TOKENS && c.disk.None?
  }

  /**
   One transfer at a time: PASV and APPE only when no transfer is under way, the data socket is connected
   after the transfer command has been carried out, upload bytes come after the 150, the downloading client
   neither sends nor closes, and the control connection stays up while a transfer is under way.
   */
  predicate Polite(c: Conn, e: Event) {
    match e
    case HangUp => Free(c.core)
    case Connect =>
      Free(c.core) && KindOf(Action(c.core)).Some? && !Client(c.core).connected
    case Receive(_) => c.hist.flow.mode == Upload && c.hist.flow.greeted
    case EndOfData => c.hist.flow.mode == Upload && c.hist.flow.greeted
    case SessionStep =>
      c.core.stasks != [] && c.core.stasks[0].TaskRead? && c.core.stasks[0].line.Whole?
      && (c.core.stasks[0].line.command.Pasv? || c.core.stasks[0].line.command.Appe?)
      ==> Free(c.core)
    case _ => true
  }

  predicate PoliteRun(cfg: Config, es: seq<Event>) {
    Run(cfg, es) && (es != [] ==>
      PoliteRun(cfg, es[..|es| - 1]) && Polite(After(cfg, es[..|es| - 1]), es[|es| - 1]))
  }

  // ---------------------------------------------------------------- what is still on the disk

  /** The bytes of a download that have not been read from the disk yet. */
  function Unread(d: DiskState): Bytes {
    match d.source
    case Entries(rest) => FileIndex.ListingText(rest)
    case Reading(file, pos) => Tail(file, pos)
    case _ => []
  }

  predicate SourceOk(d: DiskState) {
    match d.action
    case IndexLoading => d.source.Entries? && d.source.rest != []
    case IndexFinish => d.source == Entries([])
    case RetrLoading => d.source.Reading?
    case RetrFinish => d.source.Reading? && d.source.pos >= |d.source.file|
    case _ => false
  }

  lemma ListPageSplits(entries: seq<FileIndex.Entry>)
    ensures var (d, page) := ListPage(entries);
      SourceOk(d) && page + Unread(d) == FileIndex.ListingText(entries)
  {
    var p := FileIndex.TakePage(entries, PAGE_LINES);
    FileIndex.PageSplits(entries, PAGE_LINES);
    ConcatAppend(p.lines, FileIndex.Lines(p.rest));
  }

  lemma ReadChunkSplits(file: Bytes, pos: nat, count: nat)
    ensures var (d, chunk) := ReadChunk(file, pos, count);
      SourceOk(d) && chunk + Unread(d) == Tail(file, pos)
  {
    var n := ReadLen(file, pos, count);
    if n > 0 {
      assert file[pos..] == file[pos..pos + n] + file[pos + n..];
    }
  }

  lemma WriteAtAppend(file: Bytes, pos: nat, a: Bytes, b: Bytes)
    ensures WriteAt(WriteAt(file, pos, a), pos + |a|, b) == WriteAt(file, pos, a + b)
  {
    if a == [] {
      assert a + b == b;
    } else if b == [] {
      assert a + b == a;
    } else {
      WriteTwice(Pad(file, pos), pos, a, b);
    }
  }

  lemma WriteTwice(file: Bytes, pos: nat, a: Bytes, b: Bytes)
    requires pos <= |file|
    ensures Splice(Splice(file, pos, a), pos + |a|, b) == Splice(file, pos, a + b)
  {
    var once := Splice(file, pos, a);
    assert once[..pos + |a|] == file[..pos] + a;
    assert Tail(once, pos + |a| + |b|) == Tail(file, pos + |a| + |b|);
    assert file[..pos] + a + b == file[..pos] + (a + b);
  }

  // ---------------------------------------------------------------- phases

  datatype Phase =
    | Idle | PasvNoted | PasvReady | Opening
    | Starting | ChunkNoted | ChunkQueued | Acked
    | StorOpening | Greeting | Uploading | Stalled
    | Finished | Closing

  /** Everything about a connection that the phases speak of. */
  datatype View = View(
    tokens: Tokens,
    up: bool, connected: bool, armed: bool, buf: Bytes,
    disk: Option<DiskState>,
    action: DataAction,
    flow: Flow,
    owed: int)        // 150s queued or on their way, minus 226s

  function Ledger(c: Conn): seq<nat> {
    c.hist.replies + Codes(c.core.notes)
  }

  function ViewOf(c: Conn): View {
    var cl := Client(c.core);
    View(TokensOf(c.core), c.core.client.Some?, cl.connected, cl.dataArmed, cl.buf, c.core.disk, Action(c.core),
         c.hist.flow, Owed(Ledger(c)))
  }

  /** The ledger of replies is in order, and 226 is announced by the end of a transfer only. */
  ghost predicate LedgerOk(c: Conn) {
    Alternates(Ledger(c)) && NoteReply(226) !in c.core.notes
  }

  predicate Preparing(a: DataAction) {
    a.Waiting? || a.PasvOk? || KindOf(a).Some?
  }

  predicate Between(v: View) {
    !v.connected && v.buf == [] && v.disk.None? && Preparing(v.action) && v.owed == 0
  }

  /** A download is under way; `flight` is what has left the disk but not the server. */
  predicate Downloading(v: View, flight: Bytes) {
    && v.up && v.connected && v.buf == [] && v.flow.mode == Download && v.owed == 1
    && v.action in {IndexDownload, FileDownload}
    && v.disk.Some? && SourceOk(v.disk.value)
    && v.flow.sent + flight + Unread(v.disk.value) == v.flow.wanted
  }

  predicate OpenForWriting(v: View) {
    && v.disk.Some? && v.disk.value.source == Writing(v.flow.file, v.flow.start + |v.flow.written|)
    && v.flow.file == WriteAt(v.flow.before, v.flow.start, v.flow.written)
  }

  function Payload(t: DTask): Bytes {
    match t
    case DiskStoring(chunk) => chunk
    case DiskStorOk(chunk) => chunk
    case _ => []
  }

  function Payloads(ts: seq<DTask>): Bytes {
    if ts == [] then [] else Payload(ts[0]) + Payloads(ts[1..])
  }

  predicate ChunkSize(chunk: Bytes) {
    FILEBUFWRITESIZE < |chunk| <= FILEBUFSIZE
  }

  /** Full chunks only, and after them, once the data socket has been closed, perhaps the final one. */
  predicate Flushes(ts: seq<DTask>, connected: bool) {
    && (forall i :: 0 <= i < |ts| - 1 ==> ts[i].DiskStoring?)
    && (ts != [] ==> ts[|ts| - 1].DiskStoring? || (!connected && ts[|ts| - 1].DiskStorOk?))
  }

  predicate Complete(h: Flow) {
    match h.mode
    case Download => h.sent == h.wanted
    case Upload => h.written == h.received && h.file == WriteAt(h.before, h.start, h.received)
    case NoTransfer => false
  }

  predicate In(v: View, p: Phase) {
    var t := v.tokens;
    match p
    case Idle => t == NO_TOKENS && Between(v)
    case PasvNoted => t == NO_TOKENS.(notes := [NotePasv]) && Between(v)
    case PasvReady => |t.stasks| == 1 && t.stasks[0].TaskPasv? && t == NO_TOKENS.(stasks := t.stasks) && Between(v)
    case Opening =>
      && t == NO_TOKENS.(stasks := [TaskDataAccept])
      && v.up && v.connected && Between(v.(connected := false)) && KindOf(v.action).Some? && v.flow.mode == NoTransfer
    case Starting =>
      && |t.dtasks| == 1 && t == NO_TOKENS.(dtasks := t.dtasks)
      && (if v.action == IndexDownload then t.dtasks[0].DiskIndexStart?
          else v.action == FileDownload && t.dtasks[0].DiskRetrStart?)
      && v.up && v.connected && v.buf == [] && v.disk.None? && v.flow.mode == Download && v.owed == 1
    case ChunkNoted =>
      |t.notes| == 1 && t.notes[0].NoteData? && t == NO_TOKENS.(notes := t.notes) && Downloading(v, t.notes[0].chunk)
    case ChunkQueued =>
      && |t.queue| == 1 && t == NO_TOKENS.(queue := t.queue) && v.armed
      && t.queue[0].offset <= |t.queue[0].chunk| && Downloading(v, t.queue[0].chunk[t.queue[0].offset..])
    case Acked => t == NO_TOKENS.(dtasks := [DiskWriteDone]) && Downloading(v, [])
    case StorOpening =>
      && |t.dtasks| == 1 && t.dtasks[0].DiskStorStart? && t == NO_TOKENS.(dtasks := t.dtasks)
      && v.up && v.connected && v.buf == [] && v.disk.None?
      && v.action == Storing && v.flow.mode == Upload && !v.flow.greeted && v.owed == 0
    case Greeting =>
      && t == NO_TOKENS.(stasks := [TaskStorStart])
      && v.up && v.connected && v.buf == [] && OpenForWriting(v) && v.flow.received == v.flow.written == []
      && v.action == Storing && v.flow.mode == Upload && !v.flow.greeted && v.owed == 0
    case Uploading =>
      && t == NO_TOKENS.(dtasks := t.dtasks) && Flushes(t.dtasks, v.connected)
      && v.up && OpenForWriting(v) && v.flow.received == v.flow.written + Payloads(t.dtasks) + v.buf
      && (!v.connected ==> v.buf == [] && t.dtasks != [] && t.dtasks[|t.dtasks| - 1].DiskStorOk?)
      && v.action == Storing && v.flow.mode == Upload && v.owed == 1
    case Stalled =>
      && t == NO_TOKENS
      && v.up && !v.connected && v.buf == [] && v.disk.Some? && v.disk.value.source.Closed? && Complete(v.flow)
      && v.action == Storing && v.flow.mode == Upload && v.owed == 1
    case Finished =>
      && t == NO_TOKENS.(stasks := [TaskTransOk])
      && v.up && v.buf == [] && v.disk.None? && v.owed == 1
      && v.action in {IndexDownload, FileDownload, Storing} && Complete(v.flow)
      && (v.flow.mode == Upload ==> !v.connected)
    case Closing =>
      && t == NO_TOKENS.(notes := [NoteTransOk])
      && v.up && v.buf == [] && v.disk.None? && v.owed == 0
      && v.action == Waiting && Complete(v.flow)
      && (v.flow.mode == Upload ==> !v.connected)
  }
}
