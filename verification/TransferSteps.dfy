/** Why every step of a polite client keeps a connection in one of the phases of Transfers. */
module TransferSteps {
  import opened Types
  import opened Protocol
  import opened History
  import opened Gates
  import opened Replies
  import opened Transfers
  import FileIndex

  // ---------------------------------------------------------------- steps of the event loop

  lemma StepInput(cfg: Config, c: Conn, e: Event)
    requires (e.Input? || e.Write?) && Enabled(c.core, e)
    ensures ViewOf(StepConn(cfg, c, e)) == ViewOf(c) && Ledger(StepConn(cfg, c, e)) == Ledger(c)
  {
    if e.Input? {
      DataTasksAppend(c.core.stasks, [TaskRead(e.line)]);
    }
  }

  // ---------------------------------------------------------------- moving notes and tasks

  lemma LedgerSnoc(replies: seq<nat>, notes: seq<Note>, n: Note)
    ensures replies + Codes(notes + [n]) == replies + Codes(notes) + CodeOf(n)
  {
    CodesAppend(notes, [n]);
    assert Codes([n]) == CodeOf(n) + Codes([]) == CodeOf(n);
    assert replies + (Codes(notes) + CodeOf(n)) == replies + Codes(notes) + CodeOf(n);
  }

  lemma AlternatesPost(ledger: seq<nat>, n: Note)
    requires Alternates(ledger) && 0 <= Owed(ledger) + Owed(CodeOf(n)) <= 1
    ensures Alternates(ledger + CodeOf(n)) && Owed(ledger + CodeOf(n)) == Owed(ledger) + Owed(CodeOf(n))
  {
    if CodeOf(n) == [] {
      assert ledger + CodeOf(n) == ledger;
    } else {
      var code := CodeOf(n)[0];
      assert CodeOf(n) == [code];
      OwedOne(code);
      AlternatesSnoc(ledger, code);
    }
  }

  /** What one more notification does to the tokens and to the ledger of replies. */
  lemma PostNote(c: Conn, n: Note)
    requires LedgerOk(c) && n != NoteReply(226) && 0 <= Owed(Ledger(c)) + Owed(CodeOf(n)) <= 1
    ensures var notes := c.core.notes + [n]; var ledger := c.hist.replies + Codes(notes);
      && Alternates(ledger) && Owed(ledger) == Owed(Ledger(c)) + Owed(CodeOf(n))
      && NoteReply(226) !in notes
      && DataNotes(notes) == DataNotes(c.core.notes) + (if n.NoteReply? then [] else [n])
  {
    DataNotesAppend(c.core.notes, [n]);
    assert DataNotes([n]) == (if n.NoteReply? then [] else [n]) + DataNotes([]);
    LedgerSnoc(c.hist.replies, c.core.notes, n);
    AlternatesPost(Ledger(c), n);
  }

  /** Taking the oldest notification moves its reply from one half of the ledger to the other. */
  lemma TakeNote(c: Conn)
    requires c.core.notes != [] && LedgerOk(c)
    ensures var n := c.core.notes[0];
      && c.hist.replies + CodeOf(n) + Codes(c.core.notes[1..]) == Ledger(c)
      && NoteReply(226) !in c.core.notes[1..]
      && DataNotes(c.core.notes) == (if n.NoteReply? then [] else [n]) + DataNotes(c.core.notes[1..])
  {
    forall n | n in c.core.notes[1..]
      ensures n in c.core.notes
    {
    }
  }

  lemma TakeTask(ts: seq<STask>)
    requires ts != []
    ensures DataTasks(ts) == (if Carries(ts[0]) then [ts[0]] else []) + DataTasks(ts[1..])
  {
  }

  // ---------------------------------------------------------------- the session worker

  lemma ExecuteShape(s: SessionState, c: Command)
    requires !Crashes(s, c)
    ensures var r := Execute(s, c);
      && r.dtasks == [] && r.session.Some?
      && (r.notes == [] || (|r.notes| == 1 && r.notes[0].NoteReply? && Weight(r.notes[0].code) == 0)
          || (c.Pasv? && r.notes == [NotePasv]))
      && (r.session.value.action == s.action
          || (s.action == PasvOk && Preparing(r.session.value.action))
          || (c.Appe? && r.session.value.action == Storing))
  {
  }

  /** The session worker takes one task, changes the session and posts at most one notification. */
  lemma SessionView(cfg: Config, c: Conn)
    requires LedgerOk(c) && Enabled(c.core, SessionStep)
    requires var ns := RollSession(cfg, c.core.session, c.core.stasks[0]).notes;
      |ns| <= 1 && (ns != [] ==> ns[0] != NoteReply(226) && 0 <= Owed(Ledger(c)) + Owed(CodeOf(ns[0])) <= 1)
    ensures var r := RollSession(cfg, c.core.session, c.core.stasks[0]);
      var v := ViewOf(c); var c' := StepConn(cfg, c, SessionStep);
      && LedgerOk(c')
      && ViewOf(c') == v.(
          tokens := Tokens(v.tokens.notes + DataNotes(r.notes), DataTasks(c.core.stasks[1..]),
                           v.tokens.dtasks + r.dtasks, v.tokens.queue),
          action := Action(c'.core),
          flow := c'.hist.flow,
          owed := v.owed + (if r.notes == [] then 0 else Owed(CodeOf(r.notes[0]))))
  {
    hide RollSession, WriteAt, Owed, Alternates, Codes;
    var r := RollSession(cfg, c.core.session, c.core.stasks[0]);
    if r.notes == [] {
      assert c.core.notes + r.notes == c.core.notes;
      assert DataNotes(c.core.notes) + [] == DataNotes(c.core.notes);
    } else {
      assert r.notes == [r.notes[0]];
      assert DataNotes(r.notes) == (if r.notes[0].NoteReply? then [] else [r.notes[0]]) + DataNotes([]);
      PostNote(c, r.notes[0]);
    }
  }

  lemma NewAction(v: View, p: Phase, a: DataAction)
    requires In(v, p) && (a == v.action || (v.action == PasvOk && Preparing(a)) || (a == Storing && p == Idle))
    ensures In(v.(action := a), p)
  {
  }

  lemma OwedRange(c: Conn)
    requires LedgerOk(c)
    ensures 0 <= Owed(Ledger(c)) <= 1
  {
    assert Ledger(c)[..|Ledger(c)|] == Ledger(c);
  }

  lemma OnlyIdle(v: View, p: Phase)
    requires In(v, p) && v.tokens == NO_TOKENS && v.disk.None?
    ensures p == Idle
  {
  }

  lemma PasvPosted(v: View)
    requires In(v, Idle)
    ensures In(v.(tokens := v.tokens.(notes := v.tokens.notes + [NotePasv])), PasvNoted)
  {
  }

  /** A command changes the action at most; PASV also posts its notification. */
  lemma CommandView(cfg: Config, c: Conn)
    requires LedgerOk(c) && Enabled(c.core, SessionStep)
    requires c.core.session.Some? && c.core.stasks[0].TaskRead? && c.core.stasks[0].line.Whole?
    ensures var r := Execute(c.core.session.value, c.core.stasks[0].line.command);
      var v := ViewOf(c); var v' := v.(action := r.session.value.action);
      && LedgerOk(StepConn(cfg, c, SessionStep))
      && ViewOf(StepConn(cfg, c, SessionStep)) ==
         if r.notes == [NotePasv] then v'.(tokens := v.tokens.(notes := v.tokens.notes + [NotePasv])) else v'
  {
    hide Codes, WriteAt, Execute, Alternates, Unread, In;
    var s := c.core.session.value;
    var r := Execute(s, c.core.stasks[0].line.command);
    assert r == RollSession(cfg, c.core.session, c.core.stasks[0]);
    ExecuteShape(s, c.core.stasks[0].line.command);
    OwedRange(c);
    if r.notes != [] && r.notes[0].NoteReply? {
      OwedOne(r.notes[0].code);
    }
    SessionView(cfg, c);
    TakeTask(c.core.stasks);
    assert c.core.dtasks + r.dtasks == c.core.dtasks;
    assert DataNotes(c.core.notes) + [] == DataNotes(c.core.notes);
  }

  lemma StepCommand(cfg: Config, c: Conn, p: Phase) returns (q: Phase)
    requires LedgerOk(c) && In(ViewOf(c), p) && Enabled(c.core, SessionStep) && Polite(c, SessionStep)
    requires c.core.session.Some? && c.core.stasks[0].TaskRead? && c.core.stasks[0].line.Whole?
    ensures LedgerOk(StepConn(cfg, c, SessionStep)) && In(ViewOf(StepConn(cfg, c, SessionStep)), q)
    ensures q == p || p == Idle
  {
    hide In, Owed, Codes, WriteAt, LedgerOk, StepConn, Execute;
    var s := c.core.session.value;
    var cmd := c.core.stasks[0].line.command;
    ExecuteShape(s, cmd);
    CommandView(cfg, c);
    if cmd.Pasv? || cmd.Appe? {
      OnlyIdle(ViewOf(c), p);
    }
    NewAction(ViewOf(c), p, Execute(s, cmd).session.value.action);
    if Execute(s, cmd).notes == [NotePasv] {
      PasvPosted(ViewOf(c).(action := Execute(s, cmd).session.value.action));
      return PasvNoted;
    }
    return p;
  }

  /** The tasks that change neither the session nor the transfer. */
  lemma StepIdleTask(cfg: Config, c: Conn)
    requires LedgerOk(c) && Enabled(c.core, SessionStep)
    requires var t := c.core.stasks[0];
      t.TaskAccept? || t.TaskGone? || t == TaskRead(Partial) || (c.core.session.None? && !Carries(t))
    ensures LedgerOk(StepConn(cfg, c, SessionStep)) && ViewOf(StepConn(cfg, c, SessionStep)) == ViewOf(c)
  {
    hide Owed, Codes, WriteAt;
    var r := RollSession(cfg, c.core.session, c.core.stasks[0]);
    OwedRange(c);
    OwedOne(220);
    SessionView(cfg, c);
    TakeTask(c.core.stasks);
    assert r.dtasks == [] && c.core.dtasks + [] == c.core.dtasks;
    assert DataNotes(r.notes) == [] && DataNotes(c.core.notes) + [] == DataNotes(c.core.notes);
  }

  /** A task that carries the transfer is the only token there is. */
  lemma CarriedTask(v: View, p: Phase)
    requires In(v, p) && v.tokens.stasks != []
    ensures v.tokens == NO_TOKENS.(stasks := [v.tokens.stasks[0]])
    ensures match v.tokens.stasks[0]
      case TaskPasv(_) => p == PasvReady
      case TaskDataAccept => p == Opening
      case TaskStorStart => p == Greeting
      case TaskTransOk => p == Finished
      case _ => false
  {
  }

  lemma ViewPasvReady(v: View, a: DataAction)
    requires In(v, PasvReady) && (a == v.action || a == PasvOk)
    ensures In(v.(tokens := NO_TOKENS, action := a), Idle)
  {
  }

  lemma StepPasvReady(cfg: Config, c: Conn)
    requires LedgerOk(c) && In(ViewOf(c), PasvReady) && Enabled(c.core, SessionStep) && c.core.stasks[0].TaskPasv?
    ensures LedgerOk(StepConn(cfg, c, SessionStep)) && In(ViewOf(StepConn(cfg, c, SessionStep)), Idle)
  {
    hide Owed, Codes, WriteAt, LedgerOk, Alternates, Unread, Execute, StartTransfer;
    TakeTask(c.core.stasks);
    OwedOne(227);
    OwedOne(502);
    SessionView(cfg, c);
    ViewPasvReady(ViewOf(c), Action(StepConn(cfg, c, SessionStep).core));
  }

  lemma ViewListing(v: View)
    requires In(v, Opening) && v.action == Listing
    ensures In(v.(tokens := NO_TOKENS.(dtasks := [DiskIndexStart]), action := IndexDownload, owed := 1,
                  flow := v.flow.(mode := Download, greeted := false)), Starting)
  {
  }

  lemma ViewRetrieving(v: View, offset: int)
    requires In(v, Opening) && v.action == Retrieving
    ensures In(v.(tokens := NO_TOKENS.(dtasks := [DiskRetrStart(offset)]), action := FileDownload, owed := 1,
                  flow := v.flow.(mode := Download, greeted := false)), Starting)
  {
  }

  lemma ViewStoring(v: View, offset: int)
    requires In(v, Opening) && v.action == Storing
    ensures In(v.(tokens := NO_TOKENS.(dtasks := [DiskStorStart(offset)]),
                  flow := v.flow.(mode := Upload, greeted := false)), StorOpening)
  {
  }

  lemma OpeningFacts(v: View)
    requires In(v, Opening)
    ensures KindOf(v.action).Some? && v.owed == 0 && v.tokens == NO_TOKENS.(stasks := [TaskDataAccept])
  {
  }

  /** What SESSION_TASK_DATA_ACCEPT makes of the view, with `rest` the restart offset. */
  function Opened(v: View, rest: int): View {
    match v.action
    case Listing =>
      v.(tokens := NO_TOKENS.(dtasks := [DiskIndexStart]), action := IndexDownload, owed := 1,
         flow := v.flow.(mode := Download, greeted := false))
    case Retrieving =>
      v.(tokens := NO_TOKENS.(dtasks := [DiskRetrStart(rest)]), action := FileDownload, owed := 1,
         flow := v.flow.(mode := Download, greeted := false))
    case _ =>
      v.(tokens := NO_TOKENS.(dtasks := [DiskStorStart(rest)]), flow := v.flow.(mode := Upload, greeted := false))
  }

  /** The replies and tasks that starting a transfer posts. */
  lemma OpeningPosts(cfg: Config, s: SessionState)
    requires KindOf(s.action).Some?
    ensures var r := RollSession(cfg, Some(s), TaskDataAccept);
      && r.notes == (if s.action == Storing then [] else [NoteReply(150)]) && DataNotes(r.notes) == []
      && r.dtasks == [match s.action case Listing => DiskIndexStart case Retrieving => DiskRetrStart(s.rest)
                                     case _ => DiskStorStart(s.rest)]
      && r.session == Some(s.(action := match s.action case Listing => IndexDownload case Retrieving => FileDownload
                                                       case _ => Storing))
  {
  }

  lemma OpeningView(cfg: Config, c: Conn)
    requires LedgerOk(c) && In(ViewOf(c), Opening) && Enabled(c.core, SessionStep) && c.core.stasks[0].TaskDataAccept?
    ensures c.core.session.Some? && LedgerOk(StepConn(cfg, c, SessionStep))
    ensures ViewOf(StepConn(cfg, c, SessionStep)) == Opened(ViewOf(c), c.core.session.value.rest)
  {
    hide In, Owed, Codes, RollSession, LedgerOk, RecordPosted, RecordAccess, RecordFacts;
    OpeningFacts(ViewOf(c));
    OpeningPosts(cfg, c.core.session.value);
    TakeTask(c.core.stasks);
    OwedOne(150);
    SessionView(cfg, c);
  }

  lemma StepOpening(cfg: Config, c: Conn)
    requires LedgerOk(c) && In(ViewOf(c), Opening) && Enabled(c.core, SessionStep) && c.core.stasks[0].TaskDataAccept?
    ensures LedgerOk(StepConn(cfg, c, SessionStep))
    ensures In(ViewOf(StepConn(cfg, c, SessionStep)), if Action(c.core) == Storing then StorOpening else Starting)
  {
    hide In, LedgerOk, StepConn, TokensOf;
    var v := ViewOf(c);
    OpeningView(cfg, c);
    OpeningFacts(v);
    match v.action {
      case Listing => ViewListing(v);
      case Retrieving => ViewRetrieving(v, c.core.session.value.rest);
      case Storing => ViewStoring(v, c.core.session.value.rest);
    }
  }

  lemma GreetingFacts(v: View)
    requires In(v, Greeting)
    ensures v.tokens == NO_TOKENS.(stasks := [TaskStorStart]) && v.owed == 0 && v.action == Storing && v.up
  {
  }

  lemma ViewGreeting(v: View)
    requires In(v, Greeting)
    ensures In(v.(tokens := NO_TOKENS, owed := 1), Uploading)
  {
    assert v.flow.written + [] + v.buf == [];
  }

  lemma StepGreeting(cfg: Config, c: Conn)
    requires LedgerOk(c) && In(ViewOf(c), Greeting) && Enabled(c.core, SessionStep) && c.core.stasks[0].TaskStorStart?
    ensures LedgerOk(StepConn(cfg, c, SessionStep)) && In(ViewOf(StepConn(cfg, c, SessionStep)), Uploading)
  {
    hide In, Owed, Codes, WriteAt, LedgerOk, Execute, StartTransfer;
    GreetingFacts(ViewOf(c));
    TakeTask(c.core.stasks);
    OwedOne(150);
    SessionView(cfg, c);
    ViewGreeting(ViewOf(c));
  }

  lemma FinishedFacts(v: View)
    requires In(v, Finished)
    ensures v.tokens == NO_TOKENS.(stasks := [TaskTransOk]) && v.owed == 1 && v.action != Waiting && v.up
  {
  }

  lemma ViewFinished(v: View)
    requires In(v, Finished)
    ensures In(v.(tokens := NO_TOKENS.(notes := [NoteTransOk]), action := Waiting, owed := 0), Closing)
  {
  }

  lemma StepFinished(cfg: Config, c: Conn)
    requires LedgerOk(c) && In(ViewOf(c), Finished) && Enabled(c.core, SessionStep) && c.core.stasks[0].TaskTransOk?
    ensures LedgerOk(StepConn(cfg, c, SessionStep)) && In(ViewOf(StepConn(cfg, c, SessionStep)), Closing)
  {
    hide In, Owed, Codes, WriteAt, LedgerOk, Execute, StartTransfer;
    FinishedFacts(ViewOf(c));
    TakeTask(c.core.stasks);
    OwedOne(226);
    assert DataNotes([NoteTransOk]) == [NoteTransOk] + DataNotes([]);
    SessionView(cfg, c);
    var w := ViewOf(StepConn(cfg, c, SessionStep));
    assert w.tokens == NO_TOKENS.(notes := [NoteTransOk]);
    assert w.owed == 0 && w.action == Waiting && w.flow == ViewOf(c).flow;
    ViewFinished(ViewOf(c));
  }

  lemma StepSession(cfg: Config, c: Conn, p: Phase) returns (q: Phase)
    requires LedgerOk(c) && In(ViewOf(c), p) && Enabled(c.core, SessionStep) && Polite(c, SessionStep)
    ensures LedgerOk(StepConn(cfg, c, SessionStep)) && In(ViewOf(StepConn(cfg, c, SessionStep)), q)
  {
    var t := c.core.stasks[0];
    if Carries(t) {
      TakeTask(c.core.stasks);
      CarriedTask(ViewOf(c), p);
      match t {
        case TaskPasv(_) => StepPasvReady(cfg, c); return Idle;
        case TaskDataAccept => StepOpening(cfg, c); return if Action(c.core) == Storing then StorOpening else Starting;
        case TaskStorStart => StepGreeting(cfg, c); return Uploading;
        case TaskTransOk => StepFinished(cfg, c); return Closing;
      }
    } else if c.core.session.Some? && t.TaskRead? && t.line.Whole? {
      q := StepCommand(cfg, c, p);
    } else {
      StepIdleTask(cfg, c);
      return p;
    }
  }

  // ---------------------------------------------------------------- the disk worker

  lemma RollDiskShape(disk: Option<DiskState>, t: DTask, o: Oracle)
    ensures var r := RollDisk(disk, t, o);
      && (r.notes == [] || (|r.notes| == 1 && r.notes[0].NoteData?))
      && (r.stasks == [] || (|r.stasks| == 1 && Carries(r.stasks[0])))
  {
  }

  /** What a chunk, or nothing, posted by the disk worker does to the tokens and to the ledger. */
  lemma PostChunk(c: Conn, notes: seq<Note>)
    requires LedgerOk(c) && (notes == [] || (|notes| == 1 && notes[0].NoteData?))
    ensures var all := c.core.notes + notes;
      && DataNotes(all) == DataNotes(c.core.notes) + notes && NoteReply(226) !in all
      && Alternates(c.hist.replies + Codes(all)) && Owed(c.hist.replies + Codes(all)) == Owed(Ledger(c))
  {
    if notes == [] {
      assert c.core.notes + notes == c.core.notes;
      assert DataNotes(c.core.notes) + notes == DataNotes(c.core.notes);
    } else {
      assert notes == [notes[0]];
      OwedRange(c);
      PostNote(c, notes[0]);
    }
  }

  /** The disk worker takes one task and posts at most one chunk and one task. */
  lemma DiskView(cfg: Config, c: Conn, o: Oracle)
    requires LedgerOk(c) && Enabled(c.core, DiskStep(o))
    ensures var r := RollDisk(c.core.disk, c.core.dtasks[0], o);
      var v := ViewOf(c);
      && LedgerOk(StepConn(cfg, c, DiskStep(o)))
      && ViewOf(StepConn(cfg, c, DiskStep(o))) == v.(
          tokens := Tokens(v.tokens.notes + r.notes, v.tokens.stasks + r.stasks, v.tokens.dtasks[1..], v.tokens.queue),
          disk := r.disk,
          flow := RecordDisk(v.flow, v.disk, v.tokens.dtasks[0], o))
  {
    hide RollDisk, RecordDisk, Alternates, Owed, Codes;
    var r := RollDisk(c.core.disk, c.core.dtasks[0], o);
    RollDiskShape(c.core.disk, c.core.dtasks[0], o);
    PostChunk(c, r.notes);
    DataTasksAppend(c.core.stasks, r.stasks);
    assert r.stasks != [] ==> r.stasks == [r.stasks[0]];
    assert DataTasks(r.stasks) == r.stasks;
  }

  /** The token after the disk worker has taken its task. */
  function DiskNext(v: View, o: Oracle): View
    requires v.tokens.dtasks != []
  {
    var r := RollDisk(v.disk, v.tokens.dtasks[0], o);
    v.(tokens := Tokens(v.tokens.notes + r.notes, v.tokens.stasks + r.stasks, v.tokens.dtasks[1..], v.tokens.queue),
       disk := r.disk,
       flow := RecordDisk(v.flow, v.disk, v.tokens.dtasks[0], o))
  }

  lemma DiskStarting(v: View, o: Oracle)
    requires In(v, Starting)
    ensures In(DiskNext(v, o), ChunkNoted)
  {
    if v.tokens.dtasks[0].DiskIndexStart? {
      IndexStarting(v, o);
    } else {
      RetrStarting(v, o);
    }
  }

  lemma IndexStarting(v: View, o: Oracle)
    requires In(v, Starting) && v.tokens.dtasks[0].DiskIndexStart?
    ensures In(DiskNext(v, o), ChunkNoted)
  {
    hide FileIndex.TakePage, FileIndex.Lines, FileIndex.Visible, Concat, WriteAt, ReadChunk;
    ListPageSplits(FileIndex.Listable(o.dir));
  }

  lemma RetrStarting(v: View, o: Oracle)
    requires In(v, Starting) && v.tokens.dtasks[0].DiskRetrStart?
    ensures In(DiskNext(v, o), ChunkNoted)
  {
    hide ListPage, ReadLen, WriteAt;
    ReadChunkSplits(o.file, SeekPos(ToInt32(v.tokens.dtasks[0].offset)), o.count);
  }

  lemma Reassociate(a: Bytes, b: Bytes, c: Bytes)
    ensures a + b + c == a + (b + c) && a + [] + b == a + b
  {
    assert a + [] == a;
  }

  lemma DiskLoading(v: View, o: Oracle)
    requires In(v, Acked) && v.disk.value.action in {IndexLoading, RetrLoading}
    ensures In(DiskNext(v, o), ChunkNoted)
  {
    var d := v.disk.value;
    var chunk := DiskNext(v, o).tokens.notes[0].chunk;
    if d.action.IndexLoading? {
      ListPageSplits(d.source.rest);
    } else {
      ReadChunkSplits(d.source.file, d.source.pos, o.count);
    }
    Reassociate(v.flow.sent, [], Unread(d));
    Reassociate(v.flow.sent, chunk, Unread(DiskNext(v, o).disk.value));
  }

  lemma DiskEnding(v: View, o: Oracle)
    requires In(v, Acked) && v.disk.value.action in {IndexFinish, RetrFinish}
    ensures In(DiskNext(v, o), Finished)
  {
    assert Unread(v.disk.value) == [];
    assert v.flow.sent + [] + [] == v.flow.sent;
  }

  lemma DiskStorOpening(v: View, o: Oracle)
    requires In(v, StorOpening)
    ensures In(DiskNext(v, o), Greeting)
  {
  }

  lemma {:induction false} FlushesTail(ts: seq<DTask>, connected: bool)
    requires ts != [] && Flushes(ts, connected)
    ensures Flushes(ts[1..], connected)
    ensures ts[0].DiskStoring? || (ts[0].DiskStorOk? && |ts| == 1 && !connected)
  {
  }

  /** Writing a chunk keeps the file equal to the old one overwritten by what has been written so far. */
  lemma WriteStep(v: View, o: Oracle)
    requires In(v, Uploading) && v.tokens.dtasks != []
    ensures var f := DiskNext(v, o).flow; var chunk := Payload(v.tokens.dtasks[0]);
      && f == v.flow.(written := v.flow.written + chunk, file := WriteAt(v.flow.before, v.flow.start,
        v.flow.written + chunk))
      && WriteChunk(v.disk.value, chunk).0.source == Writing(f.file, f.start + |f.written|)
      && WriteChunk(v.disk.value, chunk).1 == |chunk|
      && f.received == f.written + Payloads(v.tokens.dtasks[1..]) + v.buf
  {
    hide WriteAt, Tail, Pad, Splice;
    var f := v.flow;
    var chunk := Payload(v.tokens.dtasks[0]);
    FlushesTail(v.tokens.dtasks, v.connected);
    WriteAtAppend(f.before, f.start, f.written, chunk);
    Reassociate(f.written, chunk, Payloads(v.tokens.dtasks[1..]));
  }

  /** The phase after a chunk of an upload has been written: the last one ends the transfer, unless it is empty. */
  function Written(t: DTask): Phase {
    match t
    case DiskStorOk(chunk) => if chunk != [] then Finished else Stalled
    case _ => Uploading
  }

  lemma DiskUploading(v: View, o: Oracle)
    requires In(v, Uploading) && v.tokens.dtasks != []
    ensures In(DiskNext(v, o), Written(v.tokens.dtasks[0]))
  {
    hide In;
    FirstFlush(v);
    if v.tokens.dtasks[0].DiskStorOk? {
      DiskFinal(v, o);
    } else {
      DiskStored(v, o);
    }
  }

  lemma FirstFlush(v: View)
    requires In(v, Uploading) && v.tokens.dtasks != []
    ensures v.tokens.dtasks[0].DiskStoring? || v.tokens.dtasks[0].DiskStorOk?
  {
  }

  lemma DiskStored(v: View, o: Oracle)
    requires In(v, Uploading) && v.tokens.dtasks != [] && v.tokens.dtasks[0].DiskStoring?
    ensures In(DiskNext(v, o), Uploading)
  {
    hide WriteAt, WriteChunk, Downloading, Unread, Payloads, Complete;
    FlushesTail(v.tokens.dtasks, v.connected);
    WriteStep(v, o);
  }

  lemma DiskFinal(v: View, o: Oracle)
    requires In(v, Uploading) && v.tokens.dtasks != [] && v.tokens.dtasks[0].DiskStorOk?
    ensures In(DiskNext(v, o), Written(v.tokens.dtasks[0]))
  {
    hide WriteAt, WriteChunk, Downloading, Unread;
    FlushesTail(v.tokens.dtasks, v.connected);
    WriteStep(v, o);
    assert v.tokens.dtasks[1..] == [];
    assert DiskNext(v, o).flow.written + [] + [] == DiskNext(v, o).flow.written;
  }

  lemma DiskTaskPhase(v: View, p: Phase)
    requires In(v, p) && v.tokens.dtasks != []
    ensures p in {Starting, Acked, StorOpening, Uploading}
  {
  }

  lemma StepDisk(cfg: Config, c: Conn, o: Oracle, p: Phase) returns (q: Phase)
    requires LedgerOk(c) && In(ViewOf(c), p) && Enabled(c.core, DiskStep(o))
    ensures LedgerOk(StepConn(cfg, c, DiskStep(o))) && In(ViewOf(StepConn(cfg, c, DiskStep(o))), q)
  {
    hide WriteAt, Owed, Codes, Alternates;
    var v := ViewOf(c);
    DiskView(cfg, c, o);
    DiskTaskPhase(v, p);
    if p == Starting {
      DiskStarting(v, o);
      return ChunkNoted;
    } else if p == StorOpening {
      DiskStorOpening(v, o);
      return Greeting;
    } else if p == Uploading {
      DiskUploading(v, o);
      return Written(v.tokens.dtasks[0]);
    } else if v.disk.value.action in {IndexFinish, RetrFinish} {
      DiskEnding(v, o);
      return Finished;
    } else {
      DiskLoading(v, o);
      return ChunkNoted;
    }
  }

  // ---------------------------------------------------------------- the event loop

  lemma {:induction false} Weightless(rs: seq<nat>)
    requires forall i :: 0 <= i < |rs| ==> Weight(rs[i]) == 0
    ensures Alternates(rs) && Owed(rs) == 0
  {
    if rs == [] {
      assert rs[..0] == [];
    } else {
      Weightless(rs[..|rs| - 1]);
      AlternatesSnoc(rs[..|rs| - 1], rs[|rs| - 1]);
      assert rs == rs[..|rs| - 1] + [rs[|rs| - 1]];
    }
  }

  lemma {:induction false} CodesWeightless(notes: seq<Note>)
    requires NoteReply(150) !in notes && NoteReply(226) !in notes && NoteTransOk !in notes
    ensures forall i :: 0 <= i < |Codes(notes)| ==> Weight(Codes(notes)[i]) == 0
  {
    if notes != [] {
      assert notes[0] in notes && forall n :: n in notes[1..] ==> n in notes;
      CodesWeightless(notes[1..]);
    }
  }

  /** A client is gone only between two transfers, or with a PASV on its way. */
  lemma DownPhase(v: View, p: Phase)
    requires In(v, p) && !v.up
    ensures p in {Idle, PasvNoted, PasvReady} && v.owed == 0
    ensures NoteTransOk !in v.tokens.notes && !v.connected && v.buf == [] && v.tokens.queue == []
  {
  }

  /** A new client of the descriptor takes over what the former one has left between two transfers. */
  lemma StepAccept(cfg: Config, c: Conn, p: Phase)
    requires LedgerOk(c) && In(ViewOf(c), p) && Enabled(c.core, Accept)
    ensures LedgerOk(StepConn(cfg, c, Accept)) && In(ViewOf(StepConn(cfg, c, Accept)), p)
  {
    hide Owed, Codes, Alternates;
    var c' := StepConn(cfg, c, Accept);
    DownPhase(ViewOf(c), p);
    DataNotesMember(c.core.notes, NoteTransOk);
    NoGreetingPending(c.hist.replies, c.core.notes);
    CodesWeightless(c.core.notes);
    Weightless(Codes(c.core.notes));
    DataTasksAppend(c.core.stasks, [TaskAccept]);
    assert DataTasks([TaskAccept]) == DataTasks([]);
    assert DataTasks(c.core.stasks) + [] == DataTasks(c.core.stasks);
    assert Ledger(c') == [] + Codes(c.core.notes) == Codes(c.core.notes);
  }

  lemma StepHangUp(cfg: Config, c: Conn, p: Phase)
    requires LedgerOk(c) && In(ViewOf(c), p) && Enabled(c.core, HangUp) && Polite(c, HangUp)
    ensures LedgerOk(StepConn(cfg, c, HangUp)) && In(ViewOf(StepConn(cfg, c, HangUp)), Idle)
  {
    hide Owed, Codes, Alternates;
    OnlyIdle(ViewOf(c), p);
    DataTasksAppend(c.core.stasks, [TaskGone]);
    assert DataTasks([TaskGone]) == DataTasks([]);
    assert DataTasks(c.core.stasks) + [] == DataTasks(c.core.stasks);
    assert Ledger(StepConn(cfg, c, HangUp)) == Ledger(c);
  }

  /** What on_notify does to the view when the oldest notification is `n`. */
  function Notified(v: View, n: Note, port: int): View
    requires !n.NoteReply? ==> v.tokens.notes != []
  {
    match n
    case NoteReply(code) => v.(flow := v.flow.(greeted := v.flow.greeted || code == 150))
    case NotePasv =>
      v.(tokens := v.tokens.(notes := v.tokens.notes[1..],
                             stasks := v.tokens.stasks + (if port == -1 then [] else [TaskPasv(port)])))
    case NoteTransOk =>
      v.(tokens := v.tokens.(notes := v.tokens.notes[1..]), connected := false, armed := false)
    case NoteData(chunk) =>
      v.(tokens := v.tokens.(notes := v.tokens.notes[1..], queue := v.tokens.queue + [OutBuf(chunk, 0)]), armed := true)
  }

  lemma NotifyView(cfg: Config, c: Conn, port: int)
    requires LedgerOk(c) && Enabled(c.core, Notify(port))
    ensures var n := c.core.notes[0];
      && (!n.NoteReply? ==> ViewOf(c).tokens.notes != [] && ViewOf(c).tokens.notes[0] == n)
      && LedgerOk(StepConn(cfg, c, Notify(port)))
      && ViewOf(StepConn(cfg, c, Notify(port))) == Notified(ViewOf(c), n, port)
  {
    hide Owed, Codes, WriteAt;
    var n := c.core.notes[0];
    TakeNote(c);
    assert ([n] + DataNotes(c.core.notes[1..]))[1..] == DataNotes(c.core.notes[1..]);
    assert [] + DataNotes(c.core.notes[1..]) == DataNotes(c.core.notes[1..]);
    if n.NotePasv? && port != -1 {
      DataTasksAppend(c.core.stasks, [TaskPasv(port)]);
      assert DataTasks([TaskPasv(port)]) == [TaskPasv(port)] + DataTasks([]);
    } else {
      assert c.core.stasks + [] == c.core.stasks;
      assert DataTasks(c.core.stasks) + [] == DataTasks(c.core.stasks);
    }
  }

  lemma NotePhase(v: View, p: Phase)
    requires In(v, p) && v.tokens.notes != []
    ensures v.tokens == NO_TOKENS.(notes := [v.tokens.notes[0]])
    ensures match v.tokens.notes[0]
      case NotePasv => p == PasvNoted
      case NoteTransOk => p == Closing
      case NoteData(_) => p == ChunkNoted
      case _ => false
  {
  }

  /** Before the session has posted the 150 of an upload, no 150 is on its way to the event loop. */
  lemma NotGreetedEarly(c: Conn, p: Phase)
    requires LedgerOk(c) && In(ViewOf(c), p) && p in {StorOpening, Greeting}
    ensures NoteReply(150) !in c.core.notes
  {
    DataNotesMember(c.core.notes, NoteTransOk);
    NoGreetingPending(c.hist.replies, c.core.notes);
  }

  lemma ViewReply(v: View, p: Phase, code: nat)
    requires In(v, p) && (p in {StorOpening, Greeting} ==> code != 150)
    ensures In(Notified(v, NoteReply(code), 0), p)
  {
  }

  lemma ViewNotified(v: View, p: Phase, port: int) returns (q: Phase)
    requires In(v, p) && v.tokens.notes != []
    ensures In(Notified(v, v.tokens.notes[0], port), q)
  {
    NotePhase(v, p);
    match v.tokens.notes[0] {
      case NotePasv => return if port == -1 then Idle else PasvReady;
      case NoteTransOk => return Idle;
      case NoteData(_) => return ChunkQueued;
    }
  }

  lemma StepNotify(cfg: Config, c: Conn, port: int, p: Phase) returns (q: Phase)
    requires LedgerOk(c) && In(ViewOf(c), p) && Enabled(c.core, Notify(port))
    ensures LedgerOk(StepConn(cfg, c, Notify(port))) && In(ViewOf(StepConn(cfg, c, Notify(port))), q)
  {
    hide In, LedgerOk, StepConn;
    NotifyView(cfg, c, port);
    if c.core.notes[0].NoteReply? {
      if p in {StorOpening, Greeting} {
        NotGreetedEarly(c, p);
      }
      ViewReply(ViewOf(c), p, c.core.notes[0].code);
      return p;
    }
    q := ViewNotified(ViewOf(c), p, port);
  }

  lemma StepConnect(cfg: Config, c: Conn, p: Phase)
    requires LedgerOk(c) && In(ViewOf(c), p) && Enabled(c.core, Connect) && Polite(c, Connect)
    ensures LedgerOk(StepConn(cfg, c, Connect)) && In(ViewOf(StepConn(cfg, c, Connect)), Opening)
  {
    hide Owed, Codes, WriteAt, Alternates, Unread, Execute, RollDisk;
    OnlyIdle(ViewOf(c), p);
    DataTasksAppend(c.core.stasks, [TaskDataAccept]);
    assert DataTasks([TaskDataAccept]) == [TaskDataAccept] + DataTasks([]);
    assert Ledger(StepConn(cfg, c, Connect)) == Ledger(c);
  }

  // ---------------------------------------------------------------- the data socket

  /** data_write: `count` more bytes are on the socket. */
  function Drained(v: View, count: nat): View {
    if v.tokens.queue == [] then v.(armed := false)
    else
      var b := v.tokens.queue[0];
      var v' := v.(flow := v.flow.(sent := v.flow.sent + b.chunk[Min(b.offset, |b.chunk|)..Min(b.offset + count,
        |b.chunk|)]));
      if b.offset + count < |b.chunk|
      then v'.(tokens := v.tokens.(queue := [OutBuf(b.chunk, b.offset + count)] + v.tokens.queue[1..]), armed := true)
      else v'.(tokens := v.tokens.(queue := v.tokens.queue[1..], dtasks := v.tokens.dtasks + [DiskWriteDone]),
        armed := false)
  }

  lemma DrainView(cfg: Config, c: Conn, count: nat)
    requires LedgerOk(c) && Enabled(c.core, Drain(count))
    ensures LedgerOk(StepConn(cfg, c, Drain(count)))
    ensures ViewOf(StepConn(cfg, c, Drain(count))) == Drained(ViewOf(c), count)
  {
    hide WriteAt, Owed, Codes;
    assert c.core.dtasks + [] == c.core.dtasks;
    assert Ledger(StepConn(cfg, c, Drain(count))) == Ledger(c);
  }

  lemma QueuePhase(v: View, p: Phase)
    requires In(v, p) && v.tokens.queue != []
    ensures p == ChunkQueued
  {
  }

  lemma ViewUnarmed(v: View, p: Phase)
    requires In(v, p) && v.tokens.queue == []
    ensures In(v.(armed := false), p)
  {
  }

  lemma SentPiece(sent: Bytes, chunk: Bytes, i: nat, j: nat, rest: Bytes)
    requires i <= j <= |chunk|
    ensures sent + chunk[i..j] + chunk[j..] + rest == sent + chunk[i..] + rest
  {
    assert chunk[i..] == chunk[i..j] + chunk[j..];
    Assoc(sent, chunk[i..j], chunk[j..]);
  }

  lemma ViewDrained(v: View, count: nat)
    requires In(v, ChunkQueued)
    ensures var b := v.tokens.queue[0];
      In(Drained(v, count), if b.offset + count < |b.chunk| then ChunkQueued else Acked)
  {
    var b := v.tokens.queue[0];
    SentPiece(v.flow.sent, b.chunk, b.offset, Min(b.offset + count, |b.chunk|), Unread(v.disk.value));
  }

  lemma StepDrain(cfg: Config, c: Conn, count: nat, p: Phase) returns (q: Phase)
    requires LedgerOk(c) && In(ViewOf(c), p) && Enabled(c.core, Drain(count))
    ensures LedgerOk(StepConn(cfg, c, Drain(count))) && In(ViewOf(StepConn(cfg, c, Drain(count))), q)
  {
    DrainView(cfg, c, count);
    if ViewOf(c).tokens.queue == [] {
      ViewUnarmed(ViewOf(c), p);
      return p;
    }
    QueuePhase(ViewOf(c), p);
    ViewDrained(ViewOf(c), count);
    var b := ViewOf(c).tokens.queue[0];
    return if b.offset + count < |b.chunk| then ChunkQueued else Acked;
  }

  /** Upload bytes can only come in the phase that expects them. */
  lemma ReceivingPhase(v: View, p: Phase)
    requires In(v, p) && v.connected && v.flow.mode == Upload && v.flow.greeted
    ensures p == Uploading
  {
  }

  lemma {:induction false} PayloadsAppend(ts: seq<DTask>, t: DTask)
    ensures Payloads(ts + [t]) == Payloads(ts) + Payload(t)
  {
    if ts == [] {
      assert ts + [t] == [t];
      assert Payloads([t]) == Payload(t) + Payloads([]) == Payload(t);
    } else {
      PayloadsAppend(ts[1..], t);
      HeadTail(ts, [t]);
      Assoc(Payload(ts[0]), Payloads(ts[1..]), Payload(t));
    }
  }

  lemma StepReceive(cfg: Config, c: Conn, data: Bytes)
    requires LedgerOk(c) && In(ViewOf(c), Uploading) && Enabled(c.core, Receive(data))
    ensures LedgerOk(StepConn(cfg, c, Receive(data))) && In(ViewOf(StepConn(cfg, c, Receive(data))), Uploading)
  {
    hide WriteAt, Payloads, Owed, Codes;
    var ts := c.core.dtasks;
    var buf := c.core.client.value.buf + data;
    var f := c.hist.flow;
    assert Ledger(StepConn(cfg, c, Receive(data))) == Ledger(c);
    Assoc(f.written + Payloads(ts), c.core.client.value.buf, data);
    if |buf| > FILEBUFWRITESIZE {
      PayloadsAppend(ts, DiskStoring(buf));
      Assoc(f.written, Payloads(ts), buf);
      assert f.written + Payloads(ts + [DiskStoring(buf)]) + [] == f.written + Payloads(ts + [DiskStoring(buf)]);
    } else {
      assert ts + [] == ts;
    }
  }

  lemma StepEndOfData(cfg: Config, c: Conn)
    requires LedgerOk(c) && In(ViewOf(c), Uploading) && Enabled(c.core, EndOfData)
    ensures LedgerOk(StepConn(cfg, c, EndOfData)) && In(ViewOf(StepConn(cfg, c, EndOfData)), Uploading)
  {
    hide WriteAt, Payloads, Owed, Codes;
    var ts := c.core.dtasks;
    var buf := c.core.client.value.buf;
    var f := c.hist.flow;
    assert Ledger(StepConn(cfg, c, EndOfData)) == Ledger(c);
    PayloadsAppend(ts, DiskStorOk(buf));
    Assoc(f.written, Payloads(ts), buf);
    assert f.written + Payloads(ts + [DiskStorOk(buf)]) + [] == f.written + Payloads(ts + [DiskStorOk(buf)]);
  }

  // ---------------------------------------------------------------- whole runs

  /** Every event of a polite client keeps the connection in one of the phases. */
  lemma StepPolite(cfg: Config, c: Conn, e: Event, p: Phase) returns (q: Phase)
    requires LedgerOk(c) && In(ViewOf(c), p)
    requires Enabled(c.core, e) && Polite(c, e)
    ensures LedgerOk(StepConn(cfg, c, e)) && In(ViewOf(StepConn(cfg, c, e)), q)
  {
    hide WriteAt, Owed, Codes, Alternates;
    match e {
      case Accept => StepAccept(cfg, c, p); return p;
      case HangUp => StepHangUp(cfg, c, p); return Idle;
      case Input(_) => StepInput(cfg, c, e); return p;
      case Write(_) => StepInput(cfg, c, e); return p;
      case Notify(port) => q := StepNotify(cfg, c, port, p);
      case Connect => StepConnect(cfg, c, p); return Opening;
      case Receive(data) => ReceivingPhase(ViewOf(c), p); StepReceive(cfg, c, data); return Uploading;
      case EndOfData => ReceivingPhase(ViewOf(c), p); StepEndOfData(cfg, c); return Uploading;
      case Drain(count) => q := StepDrain(cfg, c, count, p);
      case SessionStep => q := StepSession(cfg, c, p);
      case DiskStep(o) => q := StepDisk(cfg, c, o, p);
    }
  }

  lemma Unstarted()
    ensures LedgerOk(NEW_CONN) && In(ViewOf(NEW_CONN), Idle)
  {
    assert Ledger(NEW_CONN) == [];
    Weightless([]);
  }

  lemma {:induction false} PoliteRunsKeepPhases(cfg: Config, es: seq<Event>) returns (p: Phase)
    requires PoliteRun(cfg, es)
    ensures LedgerOk(After(cfg, es)) && In(ViewOf(After(cfg, es)), p)
  {
    hide In, ViewOf, LedgerOk;
    if es == [] {
      Unstarted();
      return Idle;
    }
    var prefix := es[..|es| - 1];
    p := PoliteRunsKeepPhases(cfg, prefix);
    p := StepPolite(cfg, After(cfg, prefix), es[|es| - 1], p);
  }
}
