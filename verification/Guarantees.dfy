/** What the transfer protocol guarantees, for every run of a polite client. */
module Guarantees {
  import opened Types
  import opened Protocol
  import opened History
  import opened Gates
  import opened Replies
  import opened Transfers
  import opened TransferSteps
  import FileIndex

  /** The bytes of a download that have left the disk but not the server. */
  function InFlight(c: Core): Bytes {
    var t := TokensOf(c);
    if |t.notes| == 1 && t.notes[0].NoteData? then t.notes[0].chunk
    else if |t.queue| == 1 && t.queue[0].offset <= |t.queue[0].chunk| then t.queue[0].chunk[t.queue[0].offset..]
    else []
  }

  /** The 226 is on its way: its task or its notification exists. */
  predicate EndPosted(c: Core) {
    TaskTransOk in c.stasks || NoteTransOk in c.notes
  }

  function CountTokens(t: Tokens): nat {
    |t.notes| + |t.stasks| + |t.dtasks| + |t.queue|
  }

  /** A chunk, or the acknowledgement that it has been written to the socket. */
  predicate ChunkOrAck(t: Tokens) {
    (t.notes != [] && t.notes[0].NoteData?) || t.queue != [] || t.dtasks == [DiskWriteDone]
  }

  lemma {:induction false} DataTasksMember(ts: seq<STask>, t: STask)
    ensures t in DataTasks(ts) <==> t in ts && Carries(t)
  {
    if ts != [] {
      DataTasksMember(ts[1..], t);
      assert ts == [ts[0]] + ts[1..];
    }
  }

  lemma EndTokens(v: View, p: Phase)
    requires In(v, p) && (TaskTransOk in v.tokens.stasks || NoteTransOk in v.tokens.notes)
    ensures p in {Finished, Closing}
  {
    hide WriteAt, Unread, Payloads, Flushes, Complete, OpenForWriting, Downloading, Between;
  }

  lemma EndPhase(c: Conn, p: Phase)
    requires In(ViewOf(c), p) && EndPosted(c.core)
    ensures p in {Finished, Closing}
  {
    hide In;
    DataTasksMember(c.core.stasks, TaskTransOk);
    DataNotesMember(c.core.notes, NoteTransOk);
    EndTokens(ViewOf(c), p);
  }

  /** What a RETR or LIST is to deliver is fixed when the disk worker opens its source. */
  lemma WantedIsSource(cfg: Config, c: Conn, o: Oracle)
    requires Enabled(c.core, DiskStep(o))
    ensures c.core.dtasks[0].DiskIndexStart? ==>
      StepConn(cfg, c, DiskStep(o)).hist.flow.wanted == Concat(FileIndex.Lines(FileIndex.Listable(o.dir)))
    ensures c.core.dtasks[0].DiskRetrStart? && 0 <= c.core.dtasks[0].offset < 0x8000_0000 ==>
      var r := c.core.dtasks[0].offset;
      StepConn(cfg, c, DiskStep(o)).hist.flow.wanted == if r <= |o.file| then o.file[r..] else []
  {
  }

  /** The offset of a start task loses what does not fit 32 bits; a negative one is as good as 0. */
  lemma OffsetWraps(offset: int)
    ensures var r := ToInt32(offset);
      && -0x8000_0000 <= r < 0x8000_0000 && (offset - r) % 0x1_0000_0000 == 0
      && SeekPos(r) == (if r >= 0 then r else 0)
  {
  }

  /**
   Download refines file copy: while it runs, the bytes sent, those in flight and those still on the disk
   are what was asked for; when the 226 is posted all of it has been sent.
   */
  lemma DownloadRefinesCopy(cfg: Config, es: seq<Event>)
    requires PoliteRun(cfg, es)
    ensures var c := After(cfg, es); var f := c.hist.flow;
      f.mode == Download ==>
        && (c.core.disk.Some? ==> f.sent + InFlight(c.core) + Unread(c.core.disk.value) == f.wanted)
        && (EndPosted(c.core) ==> f.sent == f.wanted)
  {
    hide In, Run, After, Unread, InFlight, EndPosted, ViewOf;
    if es == [] {
      AtStart(cfg);
    } else if After(cfg, es).hist.flow.mode == Download {
      var p := PoliteRunsKeepPhases(cfg, es);
      CopyInPhase(After(cfg, es), p);
    }
  }

  lemma AtStart(cfg: Config)
    ensures After(cfg, []) == NEW_CONN
  {
  }

  lemma CopyInPhase(c: Conn, p: Phase)
    requires In(ViewOf(c), p) && c.hist.flow.mode == Download
    ensures var f := c.hist.flow;
      && (c.core.disk.Some? ==> f.sent + InFlight(c.core) + Unread(c.core.disk.value) == f.wanted)
      && (EndPosted(c.core) ==> f.sent == f.wanted)
  {
    hide WriteAt, Unread, Payloads, Flushes, OpenForWriting, Owed, Codes, KindOf, EndPosted;
    if EndPosted(c.core) {
      EndPhase(c, p);
    }
  }

  lemma OneToken(v: View, p: Phase)
    requires In(v, p)
    ensures |v.tokens.queue| <= 1 && (v.tokens.queue != [] ==> v.armed && v.connected)
    ensures v.action in {IndexDownload, FileDownload} || (v.flow.mode == Download && NoteTransOk in v.tokens.notes) ==>
      CountTokens(v.tokens) == 1 && (v.disk.Some? <==> ChunkOrAck(v.tokens))
  {
  }

  /** A LIST or RETR has been started and its 226 is not queued yet. */
  predicate UnderWay(c: Conn) {
    Action(c.core) in {IndexDownload, FileDownload} || (c.hist.flow.mode == Download && NoteTransOk in c.core.notes)
  }

  /**
   Single token: from the start of a LIST or RETR until its 226 is queued exactly one message of it exists in
   all the queues; the disk_info exists exactly while that message is a chunk or its acknowledgement; a queued
   buffer has its write event armed.
   */
  lemma SingleToken(cfg: Config, es: seq<Event>)
    requires PoliteRun(cfg, es)
    ensures var c := After(cfg, es).core; var t := TokensOf(c);
      && |t.queue| <= 1
      && (t.queue != [] ==> Client(c).dataArmed && Client(c).connected)
      && (UnderWay(After(cfg, es)) ==> CountTokens(t) == 1 && (c.disk.Some? <==> ChunkOrAck(t)))
  {
    if es != [] {
      var p := PoliteRunsKeepPhases(cfg, es);
      DataNotesMember(After(cfg, es).core.notes, NoteTransOk);
      OneToken(ViewOf(After(cfg, es)), p);
    }
  }

  // ---------------------------------------------------------------- which start task a transfer goes back to

  predicate Starts(t: DTask) {
    t.DiskIndexStart? || t.DiskRetrStart? || t.DiskStorStart?
  }

  /** The youngest start task in a queue of the disk worker. */
  function LastStart(ts: seq<DTask>): Option<DTask> {
    if ts == [] then None
    else if Starts(ts[|ts| - 1]) then Some(ts[|ts| - 1])
    else LastStart(ts[..|ts| - 1])
  }

  lemma {:induction false} LastStartAppend(ts: seq<DTask>, more: seq<DTask>)
    ensures LastStart(ts + more) == if LastStart(more).Some? then LastStart(more) else LastStart(ts)
  {
    if more == [] {
      assert ts + more == ts;
    } else {
      LastStartAppend(ts, more[..|more| - 1]);
      assert (ts + more)[..|ts + more| - 1] == ts + more[..|more| - 1];
    }
  }

  lemma LastStartTail(ts: seq<DTask>)
    requires ts != []
    ensures LastStart(ts) ==
      if LastStart(ts[1..]).Some? then LastStart(ts[1..]) else if Starts(ts[0]) then Some(ts[0]) else None
  {
    LastStartAppend([ts[0]], ts[1..]);
    assert ts == [ts[0]] + ts[1..] && [ts[0]][..0] == [];
  }

  /** Event `i` of the run is the disk worker handling a start task. */
  ghost predicate StartAt(cfg: Config, es: seq<Event>, i: int) {
    && 0 <= i < |es| && es[i].DiskStep? && Run(cfg, es[..i])
    && After(cfg, es[..i]).core.dtasks != [] && Starts(After(cfg, es[..i]).core.dtasks[0])
  }

  /** It is the last one of the run. */
  ghost predicate LastStartAt(cfg: Config, es: seq<Event>, i: int) {
    StartAt(cfg, es, i) && forall j :: i < j < |es| ==> !StartAt(cfg, es, j)
  }

  /** The bytes read from the data socket after event `i`. */
  function ReceivedAfter(es: seq<Event>, i: int): Bytes {
    if |es| <= i + 1 || es == [] then []
    else
      ReceivedAfter(es[..|es| - 1], i) + (match es[|es| - 1] case Receive(data) => data case _ => [])
  }

  /** What the record of the transfer says is what the start task at event `i` asked for and found on the disk. */
  ghost predicate GoesBackTo(cfg: Config, es: seq<Event>, i: int, f: Flow) {
    LastStartAt(cfg, es, i) &&
    match After(cfg, es[..i]).core.dtasks[0]
    case DiskIndexStart =>
      f.mode == Download && f.wanted == Concat(FileIndex.Lines(FileIndex.Listable(es[i].oracle.dir)))
    case DiskRetrStart(offset) =>
      f.mode == Download && f.wanted == Tail(es[i].oracle.file, SeekPos(ToInt32(offset)))
    case DiskStorStart(offset) =>
      && f.mode == Upload && f.before == es[i].oracle.file && f.start == SeekPos(ToInt32(offset))
      && f.received == ReceivedAfter(es, i)
    case _ => false
  }

  /** A transfer goes back to the last start task handled, or its own still waits and is the youngest. */
  ghost predicate StartKnown(cfg: Config, es: seq<Event>, c: Conn) {
    c.hist.flow.mode != NoTransfer ==>
      match LastStart(c.core.dtasks)
      case Some(t) => t.DiskStorStart? <==> c.hist.flow.mode == Upload
      case None => exists i :: GoesBackTo(cfg, es, i, c.hist.flow)
  }

  /** The disk worker handles a start task: from now on it is the last one. */
  lemma StartsNow(cfg: Config, es: seq<Event>, c: Conn, e: Event)
    requires Run(cfg, es) && c == After(cfg, es) && Enabled(c.core, e) && StartKnown(cfg, es, c)
    requires e.DiskStep? && Starts(c.core.dtasks[0])
    ensures StartKnown(cfg, es + [e], StepConn(cfg, c, e))
  {
    hide Run, After, RollDisk, RecordAccess, RecordPosted;
    var all := es + [e];
    assert all[..|es|] == es && all[|es|] == e;
    LastStartTail(c.core.dtasks);
    assert LastStartAt(cfg, all, |es|);
    assert LastStart(c.core.dtasks[1..]).None? && c.hist.flow.mode != NoTransfer ==>
      GoesBackTo(cfg, all, |es|, StepConn(cfg, c, e).hist.flow);
  }

  /** Any other step leaves the youngest start task in its place, unless it begins a transfer and posts one. */
  lemma StartsLater(cfg: Config, c: Conn, e: Event)
    requires Enabled(c.core, e) && !(e.DiskStep? && Starts(c.core.dtasks[0]))
    ensures var c' := StepConn(cfg, c, e); var f := c.hist.flow; var f' := c'.hist.flow;
      && f'.wanted == f.wanted && f'.before == f.before && f'.start == f.start
      && f'.received == f.received + (match e case Receive(data) => data case _ => [])
    ensures var t := LastStart(StepConn(cfg, c, e).core.dtasks); var mode := StepConn(cfg, c, e).hist.flow.mode;
      || (t == LastStart(c.core.dtasks) && mode in {c.hist.flow.mode, NoTransfer})
      || (t.Some? && (t.value.DiskStorStart? <==> mode == Upload))
  {
    hide Execute, RollDisk, HandleNote, WriteAt, RecordAccess, RecordPosted, FactsOf;
    var ts := c.core.dtasks;
    var f := c.hist.flow;
    assert f.received + [] == f.received;
    match e {
      case DiskStep(o) => LastStartTail(ts);
      case SessionStep =>
        var posted := RollSession(cfg, c.core.session, c.core.stasks[0]).dtasks;
        PostedStart(cfg, c.core.session, c.core.stasks[0]);
        LastStartAppend(ts, posted);
      case Receive(data) => SameStart(ts, HandleData(c.core.client.value, data).1);
      case Drain(count) => SameStart(ts, HandleDrain(c.core.client.value, count).1);
      case EndOfData => SameStart(ts, [DiskStorOk(c.core.client.value.buf)]);
      case _ =>
    }
  }

  lemma SameStart(ts: seq<DTask>, more: seq<DTask>)
    requires |more| <= 1 && (more != [] ==> !Starts(more[0]))
    ensures LastStart(ts + more) == LastStart(ts)
  {
    assert more != [] ==> more[..|more| - 1] == [];
    LastStartAppend(ts, more);
  }

  lemma PostedStart(cfg: Config, session: Option<SessionState>, t: STask)
    requires !Fatal(session, t)
    ensures var ts := RollSession(cfg, session, t).dtasks;
      if session.Some? && t.TaskDataAccept? && KindOf(session.value.action).Some? then
        LastStart(ts).Some? && (LastStart(ts).value.DiskStorStart? <==> session.value.action.Storing?)
      else ts == []
  {
    if session.Some? && t.TaskRead? && t.line.Whole? {
      ExecuteShape(session.value, t.line.command);
    }
  }

  lemma KnownLater(cfg: Config, es: seq<Event>, c: Conn, e: Event)
    requires Run(cfg, es) && c == After(cfg, es) && Enabled(c.core, e) && StartKnown(cfg, es, c)
    requires !(e.DiskStep? && Starts(c.core.dtasks[0]))
    ensures StartKnown(cfg, es + [e], StepConn(cfg, c, e))
  {
    hide Run, After, StepConn, Starts, LastStart;
    StartsLater(cfg, c, e);
    var f' := StepConn(cfg, c, e).hist.flow;
    if f'.mode != NoTransfer && LastStart(StepConn(cfg, c, e).core.dtasks).None? {
      var i :| GoesBackTo(cfg, es, i, c.hist.flow);
      var all := es + [e];
      assert all[..|es|] == es && all[..i] == es[..i];
      forall j | i < j < |all| ensures !StartAt(cfg, all, j) {
        assert all[..j] == es[..j];
        assert j < |es| ==> !StartAt(cfg, es, j);
      }
      assert StartAt(cfg, es, i);
      assert GoesBackTo(cfg, all, i, f');
    }
  }

  lemma {:induction false} StartIsKnown(cfg: Config, es: seq<Event>)
    requires Run(cfg, es)
    ensures StartKnown(cfg, es, After(cfg, es))
  {
    hide StepConn, StartKnown;
    if es == [] {
      assert StartKnown(cfg, [], NEW_CONN) by { NothingStarted(cfg); }
    } else {
      var before := es[..|es| - 1];
      var e := es[|es| - 1];
      var c := After(cfg, before);
      StartIsKnown(cfg, before);
      assert es == before + [e];
      if e.DiskStep? && Starts(c.core.dtasks[0]) {
        StartsNow(cfg, before, c, e);
      } else {
        KnownLater(cfg, before, c, e);
      }
    }
  }

  lemma NothingStarted(cfg: Config)
    ensures StartKnown(cfg, [], NEW_CONN)
  {
  }

  /**
   A finished download has sent exactly the listing of the directory, or the file from the offset on, that its
   own start task opened: no start task was handled after it.
   */
  lemma DownloadSendsSource(cfg: Config, es: seq<Event>) returns (i: nat)
    requires PoliteRun(cfg, es)
    requires After(cfg, es).hist.flow.mode == Download && EndPosted(After(cfg, es).core)
    ensures LastStartAt(cfg, es, i)
    ensures var sent := After(cfg, es).hist.flow.sent;
      match After(cfg, es[..i]).core.dtasks[0]
      case DiskIndexStart => sent == Concat(FileIndex.Lines(FileIndex.Listable(es[i].oracle.dir)))
      case DiskRetrStart(offset) => sent == Tail(es[i].oracle.file, SeekPos(ToInt32(offset)))
      case _ => false
  {
    hide In, Run, After;
    AtStart(cfg);
    var p := PoliteRunsKeepPhases(cfg, es);
    EndPhase(After(cfg, es), p);
    EndHasNoTask(After(cfg, es), p);
    DownloadRefinesCopy(cfg, es);
    StartIsKnown(cfg, es);
    var k: int :| GoesBackTo(cfg, es, k, After(cfg, es).hist.flow);
    assert StartAt(cfg, es, k);
    i := k;
  }

  lemma EndHasNoTask(c: Conn, p: Phase)
    requires In(ViewOf(c), p) && p in {Finished, Closing}
    ensures c.core.dtasks == []
  {
    assert ViewOf(c).tokens.dtasks == [];
  }

  /**
   Upload refines overwriting: the file is the one that was opened with the bytes written so far in place; these,
   the chunks on their way to the disk and the buffer are the bytes received; when the 226 is posted, all are written.
   */
  lemma UploadRefinesOverwrite(cfg: Config, es: seq<Event>)
    requires PoliteRun(cfg, es)
    ensures var c := After(cfg, es); var f := c.hist.flow;
      f.mode == Upload ==>
        && (c.core.disk.Some? ==>
              && c.core.disk.value.source in {Writing(f.file, f.start + |f.written|), Closed}
              && f.file == WriteAt(f.before, f.start, f.written)
              && f.received == f.written + Payloads(c.core.dtasks) + Client(c.core).buf)
        && (EndPosted(c.core) ==> f.written == f.received && f.file == WriteAt(f.before, f.start, f.received))
  {
    hide In, Run, After, Payloads, WriteAt, EndPosted, ViewOf;
    if es == [] {
      AtStart(cfg);
    } else if After(cfg, es).hist.flow.mode == Upload {
      var p := PoliteRunsKeepPhases(cfg, es);
      OverwriteInPhase(After(cfg, es), p);
    }
  }

  lemma OverwriteInPhase(c: Conn, p: Phase)
    requires In(ViewOf(c), p) && c.hist.flow.mode == Upload
    ensures var f := c.hist.flow;
      && (c.core.disk.Some? ==>
            && c.core.disk.value.source in {Writing(f.file, f.start + |f.written|), Closed}
            && f.file == WriteAt(f.before, f.start, f.written)
            && f.received == f.written + Payloads(c.core.dtasks) + Client(c.core).buf)
      && (EndPosted(c.core) ==> f.written == f.received && f.file == WriteAt(f.before, f.start, f.received))
  {
    hide WriteAt, Unread, Flushes, Owed, Codes, KindOf, EndPosted;
    if EndPosted(c.core) {
      EndPhase(c, p);
    }
    assert p == Greeting ==> [] + Payloads([]) + [] == [];
  }

  /**
   A finished upload has left the file that its own start task opened, overwritten from the offset of that task by
   exactly the bytes read from the data socket since.
   */
  lemma UploadWritesReceived(cfg: Config, es: seq<Event>) returns (i: nat)
    requires PoliteRun(cfg, es)
    requires After(cfg, es).hist.flow.mode == Upload && EndPosted(After(cfg, es).core)
    ensures LastStartAt(cfg, es, i) && After(cfg, es[..i]).core.dtasks[0].DiskStorStart?
    ensures After(cfg, es).hist.flow.file ==
      WriteAt(es[i].oracle.file, SeekPos(ToInt32(After(cfg, es[..i]).core.dtasks[0].offset)), ReceivedAfter(es, i))
  {
    hide In, Run, After, WriteAt;
    AtStart(cfg);
    var p := PoliteRunsKeepPhases(cfg, es);
    EndPhase(After(cfg, es), p);
    EndHasNoTask(After(cfg, es), p);
    UploadRefinesOverwrite(cfg, es);
    StartIsKnown(cfg, es);
    var k: int :| GoesBackTo(cfg, es, k, After(cfg, es).hist.flow);
    assert StartAt(cfg, es, k);
    i := k;
  }

  /** WriteAt in terms of positions: outside the written range the old file is kept, gaps are zeros. */
  lemma WriteAtMeaning(file: Bytes, pos: nat, data: Bytes, i: nat)
    requires data != []
    ensures var r := WriteAt(file, pos, data);
      && |r| == (if |file| > pos + |data| then |file| else pos + |data|)
      && (i < |r| ==> r[i] == if pos <= i < pos + |data| then data[i - pos] else if i < |file| then file[i] else 0)
  {
    var padded := Pad(file, pos);
    assert i < |padded| ==> padded[i] == if i < |file| then file[i] else 0;
  }

  /** Replies: at every moment each 226 queued has closed exactly one 150 queued before it (RFC 959, section 5.4). */
  lemma ReplyOrder(cfg: Config, es: seq<Event>, k: nat)
    requires PoliteRun(cfg, es) && k <= |After(cfg, es).hist.replies|
    ensures var rs := multiset(After(cfg, es).hist.replies[..k]);
      rs[226] <= rs[150] <= rs[226] + 1
  {
    var rs := After(cfg, es).hist.replies;
    OwedCounts(rs[..k]);
    if es != [] {
      var p := PoliteRunsKeepPhases(cfg, es);
      AlternatesPrefix(rs, Codes(After(cfg, es).core.notes));
    }
  }

  /** The 226 handler closes the data connection only when the transfer is complete and nothing of it is left. */
  lemma ClosedWhenComplete(cfg: Config, es: seq<Event>)
    requires PoliteRun(cfg, es)
    requires After(cfg, es).core.notes != [] && After(cfg, es).core.notes[0] == NoteTransOk
    ensures var c := After(cfg, es);
      && Complete(c.hist.flow) && c.core.disk.None?
      && Client(c.core).dataQ == [] && Client(c.core).buf == [] && c.core.dtasks == []
  {
    hide WriteAt, Unread, Flushes, Payloads, Downloading, OpenForWriting, Owed, Codes, KindOf, Run, After,
      Complete, Alternates;
    AtStart(cfg);
    var p := PoliteRunsKeepPhases(cfg, es);
    EndPhase(After(cfg, es), p);
    assert ViewOf(After(cfg, es)).tokens.notes[0] == NoteTransOk;
  }

  // ---------------------------------------------------------------- in every run, polite or not

  ghost predicate BufferInv(c: Core) {
    && (c.client.Some? ==> |c.client.value.buf| <= FILEBUFWRITESIZE)
    && (forall t :: t in c.dtasks && t.DiskStoring? ==> ChunkSize(t.chunk))
    && (forall t :: t in c.dtasks && t.DiskStorOk? ==> |t.chunk| <= FILEBUFWRITESIZE)
  }

  lemma BufferStep(cfg: Config, c: Core, e: Event)
    requires BufferInv(c) && Enabled(c, e)
    ensures BufferInv(Step(cfg, c, e))
  {
    hide Execute, RollOpenDisk, ListPage, ReadChunk;
    if e.SessionStep? && c.session.Some? && c.stasks[0].TaskRead? && c.stasks[0].line.Whole? {
      ExecuteShape(c.session.value, c.stasks[0].line.command);
    }
  }

  /**
   The upload buffer never exceeds its flush limit between two reads, so the exit in data_read is not reached
   and copy_data stays within file_buffer; every chunk flushed in between is nearly a full buffer.
   */
  lemma {:induction false} BufferBounded(cfg: Config, es: seq<Event>)
    requires Run(cfg, es)
    ensures BufferInv(After(cfg, es).core)
  {
    if es != [] {
      BufferBounded(cfg, es[..|es| - 1]);
      BufferStep(cfg, After(cfg, es[..|es| - 1]).core, es[|es| - 1]);
    }
  }

  /** Posted replies are on the socket, in the client's write queue or still in the socketpair, in this order. */
  ghost predicate RepliesInv(c: Conn) {
    c.core.client.Some? ==>
      && c.hist.delivered + c.core.client.value.writeQ == c.hist.replies
      && c.hist.replies + Codes(c.core.notes) == c.hist.posted
  }

  /** What a step does to replies queued and replies in the socketpair, seen as one sequence. */
  lemma LedgerStep(cfg: Config, c: Conn, e: Event)
    requires Enabled(c.core, e) && !e.Accept?
    ensures Ledger(StepConn(cfg, c, e)) ==
      if e.SessionStep? then Ledger(c) + Codes(RollSession(cfg, c.core.session, c.core.stasks[0]).notes) else Ledger(c)
  {
    hide RollSession, HandleDrain, HandleData;
    if e.Notify? {
      Assoc(c.hist.replies, CodeOf(c.core.notes[0]), Codes(c.core.notes[1..]));
    } else if e.SessionStep? {
      var notes := RollSession(cfg, c.core.session, c.core.stasks[0]).notes;
      CodesAppend(c.core.notes, notes);
      Assoc(c.hist.replies, Codes(c.core.notes), Codes(notes));
    } else if e.DiskStep? {
      var notes := RollDisk(c.core.disk, c.core.dtasks[0], e.oracle).notes;
      RollDiskShape(c.core.disk, c.core.dtasks[0], e.oracle);
      CodesAppend(c.core.notes, notes);
      NoCodes(notes);
      assert Codes(c.core.notes) + [] == Codes(c.core.notes);
    }
  }

  lemma {:induction false} NoCodes(notes: seq<Note>)
    requires forall n :: n in notes ==> n.NoteData?
    ensures Codes(notes) == []
  {
    if notes != [] {
      assert notes[0] in notes && forall n :: n in notes[1..] ==> n in notes;
      NoCodes(notes[1..]);
    }
  }

  lemma WriteQStep(cfg: Config, c: Conn, e: Event)
    requires RepliesInv(c) && Enabled(c.core, e)
    ensures var c' := StepConn(cfg, c, e);
      c'.core.client.Some? ==> c'.hist.delivered + c'.core.client.value.writeQ == c'.hist.replies
  {
    hide RollSession, RollDisk, RecordFlow, RecordAccess, RecordPosted, FactsOf;
    if e.Write? && e.whole && c.core.client.value.writeQ != [] {
      var q := c.core.client.value.writeQ;
      assert c.hist.delivered + [q[0]] + q[1..] == c.hist.delivered + q;
    } else if e.Notify? {
      var q := c.core.client.value.writeQ;
      Assoc(c.hist.delivered, q, CodeOf(c.core.notes[0]));
      assert q + [] == q;
    }
  }

  lemma RepliesStep(cfg: Config, c: Conn, e: Event)
    requires RepliesInv(c) && Enabled(c.core, e)
    ensures RepliesInv(StepConn(cfg, c, e))
  {
    hide RollSession, RollDisk, HandleData, HandleDrain, HandleNote, HandleWrite, RecordFlow, RecordAccess,
      FactsOf;
    WriteQStep(cfg, c, e);
    if !e.Accept? {
      LedgerStep(cfg, c, e);
    }
  }

  lemma {:induction false} RepliesRun(cfg: Config, es: seq<Event>)
    requires Run(cfg, es)
    ensures RepliesInv(After(cfg, es))
  {
    if es != [] {
      RepliesRun(cfg, es[..|es| - 1]);
      RepliesStep(cfg, After(cfg, es[..|es| - 1]), es[|es| - 1]);
    }
  }

  /**
   The replies sent, then those queued for the socket, then those in the socketpair are exactly the replies that
   were in the socketpair when the client was accepted and those posted since, in order, none lost or repeated.
   Whose replies these are, is the matter of Inheritance.
   */
  lemma RepliesInOrder(cfg: Config, es: seq<Event>)
    requires Run(cfg, es) && After(cfg, es).core.client.Some?
    ensures var c := After(cfg, es);
      c.hist.delivered + c.core.client.value.writeQ + Codes(c.core.notes) == c.hist.posted
  {
    RepliesRun(cfg, es);
  }
}
