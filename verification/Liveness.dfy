/** Every transfer that is served fairly ends with a 226, except an upload whose last flush is empty. */
module Liveness {
  import opened Types
  import opened Protocol
  import opened History
  import opened Gates
  import opened Replies
  import opened Transfers
  import opened TransferSteps
  import Guarantees
  import FileIndex

  // ---------------------------------------------------------------- what is left to do

  /** The phases from which a transfer runs to its end without further data from the client. */
  predicate Ending(v: View, p: Phase) {
    In(v, p) &&
    match p
    case Starting => true
    case ChunkNoted => true
    case ChunkQueued => true
    case Acked => true
    case Finished => true
    case Uploading =>
      v.tokens.dtasks != [] &&
      var t := v.tokens.dtasks[|v.tokens.dtasks| - 1];
      t.DiskStorOk? && t.chunk != []
    case _ => false
  }

  /** The steps that what is still on the disk can cost, three of them for every chunk. */
  function Cost(d: DiskState): nat {
    (match d.source
     case Entries(rest) => 4 * |FileIndex.ListingText(rest)| + 4 * |rest|
     case Reading(file, pos) => 4 * |Tail(file, pos)|
     case _ => 0)
    + (if d.action in {IndexLoading, RetrLoading} then 4 else 0)
  }

  function Work(v: View, p: Phase): nat
    requires Ending(v, p)
  {
    if p == ChunkNoted then Cost(v.disk.value) + 3 + |v.tokens.notes[0].chunk|
    else if p == ChunkQueued then Cost(v.disk.value) + 2 + |v.tokens.queue[0].chunk| - v.tokens.queue[0].offset
    else if p == Acked then Cost(v.disk.value) + 1
    else if p == Uploading then |v.tokens.dtasks|
    else 0
  }

  /** How many replies are ahead of the chunk in the socketpair. */
  function Lead(notes: seq<Note>): nat {
    if notes == [] || !notes[0].NoteReply? then 0 else 1 + Lead(notes[1..])
  }

  /** How many commands are ahead of the transfer's task in the session worker's queue. */
  function LeadTasks(ts: seq<STask>): nat {
    if ts == [] || Carries(ts[0]) then 0 else 1 + LeadTasks(ts[1..])
  }

  function Wait(c: Core, p: Phase): nat {
    if p == ChunkNoted then Lead(c.notes) else if p == Finished then LeadTasks(c.stasks) else 0
  }

  lemma {:induction false} LeadAppend(notes: seq<Note>, more: seq<Note>)
    requires DataNotes(notes) != []
    ensures Lead(notes + more) == Lead(notes)
  {
    HeadTail(notes, more);
    if notes[0].NoteReply? {
      LeadAppend(notes[1..], more);
    }
  }

  lemma {:induction false} LeadTasksAppend(ts: seq<STask>, more: seq<STask>)
    requires DataTasks(ts) != []
    ensures LeadTasks(ts + more) == LeadTasks(ts)
  {
    HeadTail(ts, more);
    if !Carries(ts[0]) {
      LeadTasksAppend(ts[1..], more);
    }
  }

  // ---------------------------------------------------------------- who has to move

  datatype Worker = EventLoop | DataSocket | SessionWorker | DiskWorker

  /** The worker that holds the token of the transfer. */
  function Holder(p: Phase): Worker {
    match p
    case ChunkNoted => EventLoop
    case ChunkQueued => DataSocket
    case Finished => SessionWorker
    case _ => DiskWorker
  }

  /** The worker takes a step; for the data socket, one that accepts at least a byte if there is one. */
  predicate Moves(w: Worker, e: Event) {
    match w
    case EventLoop => e.Notify?
    case DataSocket => e.Drain? && e.count > 0
    case SessionWorker => e.SessionStep?
    case DiskWorker => e.DiskStep?
  }

  predicate Ready(w: Worker, c: Core) {
    match w
    case EventLoop => c.client.Some? && c.notes != []
    case DataSocket => c.client.Some? && c.client.value.connected && c.client.value.dataArmed
    case SessionWorker => c.stasks != []
    case DiskWorker => c.dtasks != []
  }

  /** A transfer never waits for itself: the worker that holds its token can always move. */
  lemma HolderIsReady(c: Conn, p: Phase)
    requires Ending(ViewOf(c), p)
    ensures Ready(Holder(p), c.core)
  {
  }

  /** The rank of a state: still to be opened, work left, messages ahead. */
  predicate Below(a: (nat, nat, nat), b: (nat, nat, nat)) {
    a.0 < b.0 || (a.0 == b.0 && (a.1 < b.1 || (a.1 == b.1 && a.2 < b.2)))
  }

  function Rank(c: Conn, p: Phase): (nat, nat, nat)
    requires Ending(ViewOf(c), p)
  {
    (if p == Starting then 1 else 0, Work(ViewOf(c), p), Wait(c.core, p))
  }

  /** One more chunk costs less than the acknowledgement that asks for it was worth. */
  lemma ChunkCosts(v: View, o: Oracle)
    requires In(v, Acked) && v.disk.value.action in {IndexLoading, RetrLoading}
    ensures var n := NextChunk(v.disk.value, o.count);
      && |n.notes| == 1 && n.notes[0].NoteData? && n.disk.Some?
      && Cost(n.disk.value) + 3 + |n.notes[0].chunk| < Cost(v.disk.value) + 1
  {
    var d := v.disk.value;
    if d.action.IndexLoading? {
      ListPageSplits(d.source.rest);
      FileIndex.PageRest(d.source.rest, PAGE_LINES);
    } else {
      ReadChunkSplits(d.source.file, d.source.pos, o.count);
    }
  }

  // ---------------------------------------------------------------- the holder's steps

  /** The transfer has come closer to its end, or its 226 has been posted. */
  ghost predicate Closer(c: Conn, p: Phase, c': Conn, q: Phase)
    requires Ending(ViewOf(c), p)
  {
    LedgerOk(c') &&
    if q == Closing then In(ViewOf(c'), Closing)
    else Ending(ViewOf(c'), q) && Below(Rank(c', q), Rank(c, p))
  }

  lemma QuietReply(cfg: Config, c: Conn, port: int, p: Phase)
    requires LedgerOk(c) && In(ViewOf(c), p) && p !in {StorOpening, Greeting}
    requires Enabled(c.core, Notify(port)) && c.core.notes[0].NoteReply?
    ensures var c' := StepConn(cfg, c, Notify(port));
      && LedgerOk(c') && In(ViewOf(c'), p)
      && ViewOf(c') == Notified(ViewOf(c), c.core.notes[0], port)
      && c'.core.stasks == c.core.stasks && c'.core.notes == c.core.notes[1..]
  {
    hide Owed, Codes, Alternates, Unread;
    NotifyView(cfg, c, port);
    ViewReply(ViewOf(c), p, c.core.notes[0].code);
  }

  lemma MoveNoted(cfg: Config, c: Conn, port: int) returns (q: Phase)
    requires LedgerOk(c) && Ending(ViewOf(c), ChunkNoted) && Enabled(c.core, Notify(port))
    ensures Closer(c, ChunkNoted, StepConn(cfg, c, Notify(port)), q)
  {
    hide Owed, Codes, Alternates, Unread, WriteAt, LedgerOk, StepConn, TokensOf;
    if c.core.notes[0].NoteReply? {
      QuietReply(cfg, c, port, ChunkNoted);
      return ChunkNoted;
    }
    NotifyView(cfg, c, port);
    return ChunkQueued;
  }

  lemma MoveQueued(cfg: Config, c: Conn, count: nat) returns (q: Phase)
    requires LedgerOk(c) && Ending(ViewOf(c), ChunkQueued) && Enabled(c.core, Drain(count))
    requires var b := ViewOf(c).tokens.queue[0]; count > 0 || b.offset == |b.chunk|
    ensures q != Closing && Closer(c, ChunkQueued, StepConn(cfg, c, Drain(count)), q)
  {
    hide Owed, Codes, Alternates, Unread;
    var b := ViewOf(c).tokens.queue[0];
    DrainView(cfg, c, count);
    ViewDrained(ViewOf(c), count);
    return if b.offset + count < |b.chunk| then ChunkQueued else Acked;
  }

  lemma MoveStarting(cfg: Config, c: Conn, o: Oracle)
    requires LedgerOk(c) && Ending(ViewOf(c), Starting) && Enabled(c.core, DiskStep(o))
    ensures Closer(c, Starting, StepConn(cfg, c, DiskStep(o)), ChunkNoted)
  {
    hide Owed, Codes, Alternates, Unread, WriteAt, ListPage, ReadChunk, Cost;
    DiskView(cfg, c, o);
    DiskStarting(ViewOf(c), o);
  }

  lemma MoveAcked(cfg: Config, c: Conn, o: Oracle) returns (q: Phase)
    requires LedgerOk(c) && Ending(ViewOf(c), Acked) && Enabled(c.core, DiskStep(o))
    ensures Closer(c, Acked, StepConn(cfg, c, DiskStep(o)), q)
  {
    hide Owed, Codes, Alternates, Unread, WriteAt, ListPage, ReadChunk, Cost;
    var v := ViewOf(c);
    DiskView(cfg, c, o);
    if v.disk.value.action in {IndexFinish, RetrFinish} {
      DiskEnding(v, o);
      return Finished;
    }
    DiskLoading(v, o);
    ChunkCosts(v, o);
    return ChunkNoted;
  }

  /** Every chunk of an upload that reaches the file is one less to come, and the last one ends the transfer. */
  lemma ViewUploading(v: View, o: Oracle) returns (q: Phase)
    requires Ending(v, Uploading)
    ensures q in {Uploading, Finished} && Ending(DiskNext(v, o), q) && Work(DiskNext(v, o), q) < Work(v, Uploading)
  {
    hide WriteAt, WriteChunk, Payloads, RecordDisk, OpenForWriting;
    DiskUploading(v, o);
    FlushesTail(v.tokens.dtasks, v.connected);
    return if v.tokens.dtasks[0].DiskStorOk? then Finished else Uploading;
  }

  lemma MoveUploading(cfg: Config, c: Conn, o: Oracle) returns (q: Phase)
    requires LedgerOk(c) && Ending(ViewOf(c), Uploading) && Enabled(c.core, DiskStep(o))
    ensures Closer(c, Uploading, StepConn(cfg, c, DiskStep(o)), q)
  {
    hide In, Ending, Work, LedgerOk, StepConn, RollDisk, RecordDisk;
    DiskView(cfg, c, o);
    q := ViewUploading(ViewOf(c), o);
  }

  /** A task of no importance to the transfer leaves the phase and the view, up to the action, as they are. */
  lemma QuietTask(cfg: Config, c: Conn, p: Phase)
    requires LedgerOk(c) && In(ViewOf(c), p) && !Free(c.core)
    requires Enabled(c.core, SessionStep) && Polite(c, SessionStep) && !Carries(c.core.stasks[0])
    ensures var c' := StepConn(cfg, c, SessionStep);
      LedgerOk(c') && In(ViewOf(c'), p) && ViewOf(c') == ViewOf(c).(action := Action(c'.core))
  {
    hide Owed, Codes, Alternates, Unread, WriteAt, LedgerOk, Execute, In, RollDisk;
    var t := c.core.stasks[0];
    if c.core.session.Some? && t.TaskRead? && t.line.Whole? {
      ExecuteShape(c.core.session.value, t.line.command);
      CommandView(cfg, c);
      NewAction(ViewOf(c), p, Action(StepConn(cfg, c, SessionStep).core));
    } else {
      StepIdleTask(cfg, c);
    }
  }

  lemma MoveFinished(cfg: Config, c: Conn) returns (q: Phase)
    requires LedgerOk(c) && Ending(ViewOf(c), Finished) && Enabled(c.core, SessionStep) && Polite(c, SessionStep)
    ensures Closer(c, Finished, StepConn(cfg, c, SessionStep), q)
  {
    hide In, Owed, Codes, Alternates, Unread, WriteAt, Execute, LedgerOk, RollSession;
    if Carries(c.core.stasks[0]) {
      TakeTask(c.core.stasks);
      CarriedTask(ViewOf(c), Finished);
      StepFinished(cfg, c);
      return Closing;
    }
    FinishedFacts(ViewOf(c));
    QuietTask(cfg, c, Finished);
    return Finished;
  }

  /** Whenever the holder of the token moves, the transfer comes closer to its end. */
  lemma HolderStep(cfg: Config, c: Conn, e: Event, p: Phase) returns (q: Phase)
    requires LedgerOk(c) && Ending(ViewOf(c), p) && Enabled(c.core, e) && Polite(c, e) && Moves(Holder(p), e)
    ensures Closer(c, p, StepConn(cfg, c, e), q)
  {
    hide Owed, Codes, Alternates, Unread, WriteAt, StepConn, ViewOf, LedgerOk, In;
    match e {
      case Notify(port) => q := MoveNoted(cfg, c, port);
      case Drain(count) => q := MoveQueued(cfg, c, count);
      case DiskStep(o) =>
        match p {
          case Starting => MoveStarting(cfg, c, o); return ChunkNoted;
          case Acked => q := MoveAcked(cfg, c, o);
          case _ => q := MoveUploading(cfg, c, o);
        }
      case SessionStep => q := MoveFinished(cfg, c);
    }
  }

  // ---------------------------------------------------------------- everybody else's steps

  /** Nothing has changed for the transfer, or it has come closer to its end. */
  ghost predicate NoFurther(c: Conn, p: Phase, c': Conn, q: Phase)
    requires Ending(ViewOf(c), p)
  {
    LedgerOk(c') && Ending(ViewOf(c'), q) && ((q == p && Rank(c', q) == Rank(c, p)) || Below(Rank(c', q), Rank(c, p)))
  }

  lemma OtherInput(cfg: Config, c: Conn, e: Event, p: Phase)
    requires LedgerOk(c) && Ending(ViewOf(c), p) && (e.Input? || e.Write?) && Enabled(c.core, e)
    ensures NoFurther(c, p, StepConn(cfg, c, e), p)
  {
    hide Owed, Codes, Alternates, Unread, WriteAt, Cost;
    StepInput(cfg, c, e);
    if e.Input? && p == Finished {
      LeadTasksAppend(c.core.stasks, [TaskRead(e.line)]);
    }
  }

  lemma OtherNotify(cfg: Config, c: Conn, port: int, p: Phase)
    requires LedgerOk(c) && Ending(ViewOf(c), p) && p != ChunkNoted && Enabled(c.core, Notify(port))
    ensures NoFurther(c, p, StepConn(cfg, c, Notify(port)), p)
  {
    hide Owed, Codes, Alternates, Unread, WriteAt, Cost, LedgerOk, StepConn;
    NotifyView(cfg, c, port);
    if !c.core.notes[0].NoteReply? {
      NotePhase(ViewOf(c), p);
    }
    QuietReply(cfg, c, port, p);
  }

  /** A write to the data socket that sends nothing of a chunk leaves the work as it is. */
  lemma ViewStays(v: View, p: Phase, count: nat)
    requires Ending(v, p)
    requires v.tokens.queue != [] ==> count == 0 && v.tokens.queue[0].offset < |v.tokens.queue[0].chunk|
    ensures Ending(Drained(v, count), p) && Work(Drained(v, count), p) == Work(v, p)
  {
    hide WriteAt, Unread, Cost, Payloads;
    if v.tokens.queue == [] {
      ViewUnarmed(v, p);
    } else {
      QueuePhase(v, p);
      ViewDrained(v, count);
    }
  }

  lemma QueuedPart(v: View, p: Phase)
    requires Ending(v, p) && v.tokens.queue != []
    ensures p == ChunkQueued && v.tokens.queue[0].offset <= |v.tokens.queue[0].chunk|
  {
    hide WriteAt, Unread, Payloads, Downloading;
    QueuePhase(v, p);
  }

  lemma OtherDrain(cfg: Config, c: Conn, count: nat, p: Phase) returns (q: Phase)
    requires LedgerOk(c) && Ending(ViewOf(c), p) && Enabled(c.core, Drain(count)) && (p == ChunkQueued ==> count == 0)
    ensures NoFurther(c, p, StepConn(cfg, c, Drain(count)), q)
  {
    hide Ending, Work, LedgerOk, ViewOf, Drained, RecordFlow, RecordFacts;
    var v := ViewOf(c);
    if v.tokens.queue != [] {
      QueuedPart(v, p);
    }
    if v.tokens.queue != [] && v.tokens.queue[0].offset == |v.tokens.queue[0].chunk| {
      q := MoveQueued(cfg, c, count);
    } else {
      DrainView(cfg, c, count);
      ViewStays(v, p, count);
      return p;
    }
  }

  lemma NotedPart(v: View)
    requires In(v, ChunkNoted)
    ensures v.tokens.notes != []
  {
  }

  lemma SameWork(v: View, p: Phase, a: DataAction)
    requires Ending(v, p) && In(v.(action := a), p)
    ensures Ending(v.(action := a), p) && Work(v.(action := a), p) == Work(v, p) && v.tokens != NO_TOKENS
  {
  }

  lemma OtherTask(cfg: Config, c: Conn, p: Phase)
    requires LedgerOk(c) && Ending(ViewOf(c), p) && p != Finished && Enabled(c.core, SessionStep)
      && Polite(c, SessionStep)
    ensures NoFurther(c, p, StepConn(cfg, c, SessionStep), p)
  {
    hide In, Owed, Codes, Alternates, Unread, WriteAt, Cost, RollSession, Work, FactsOf, LedgerOk;
    assert !Carries(c.core.stasks[0]) by {
      TakeTask(c.core.stasks);
      if Carries(c.core.stasks[0]) {
        CarriedTask(ViewOf(c), p);
      }
    }
    SameWork(ViewOf(c), p, Action(c.core));
    QuietTask(cfg, c, p);
    SameWork(ViewOf(c), p, Action(StepConn(cfg, c, SessionStep).core));
    if p == ChunkNoted {
      NotedPart(ViewOf(c));
      LeadAppend(c.core.notes, RollSession(cfg, c.core.session, c.core.stasks[0]).notes);
    }
  }

  /** Once a transfer runs to its end, the client has neither a connection to open nor data to send. */
  lemma NoMoreData(c: Conn, e: Event, p: Phase)
    requires Ending(ViewOf(c), p) && Enabled(c.core, e) && Polite(c, e)
    ensures !e.Connect? && !e.Receive? && !e.EndOfData? && !e.HangUp?
  {
    if e.Receive? || e.EndOfData? {
      ReceivingPhase(ViewOf(c), p);
    }
  }

  /** No step of another worker takes the transfer further from its end. */
  lemma OtherStep(cfg: Config, c: Conn, e: Event, p: Phase) returns (q: Phase)
    requires LedgerOk(c) && Ending(ViewOf(c), p) && c.core.client.Some? && Enabled(c.core, e) && Polite(c, e)
    requires !Moves(Holder(p), e)
    ensures NoFurther(c, p, StepConn(cfg, c, e), q)
  {
    hide Owed, Codes, Alternates, Unread, WriteAt, StepConn, LedgerOk, Cost;
    NoMoreData(c, e, p);
    q := p;
    match e {
      case Input(_) => OtherInput(cfg, c, e, p);
      case Write(_) => OtherInput(cfg, c, e, p);
      case Notify(port) => OtherNotify(cfg, c, port, p);
      case Drain(count) => q := OtherDrain(cfg, c, count, p);
      case SessionStep => OtherTask(cfg, c, p);
      case DiskStep(_) => DiskTaskPhase(ViewOf(c), p);
    }
  }

  // ---------------------------------------------------------------- infinite runs

  /** The first n events of an infinite run. */
  function Prefix(run: nat -> Event, n: nat): seq<Event> {
    seq(n, i requires 0 <= i => run(i))
  }

  ghost predicate PoliteForever(cfg: Config, run: nat -> Event) {
    forall n: nat :: PoliteRun(cfg, Prefix(run, n))
  }

  function At(cfg: Config, run: nat -> Event, n: nat): Conn
    requires PoliteRun(cfg, Prefix(run, n))
  {
    After(cfg, Prefix(run, n))
  }

  ghost predicate Served(cfg: Config, run: nat -> Event, w: Worker, i: nat)
    requires PoliteRun(cfg, Prefix(run, i))
  {
    Moves(w, run(i)) || !Ready(w, At(cfg, run, i).core)
  }

  ghost predicate ServedLater(cfg: Config, run: nat -> Event, w: Worker, i: nat)
    requires PoliteForever(cfg, run)
  {
    exists j: nat :: i <= j && Served(cfg, run, w, j)
  }

  /** No worker that stays ready is passed over for ever. */
  ghost predicate Fair(cfg: Config, run: nat -> Event)
    requires PoliteForever(cfg, run)
  {
    forall w: Worker, i: nat :: ServedLater(cfg, run, w, i)
  }

  lemma NextState(cfg: Config, run: nat -> Event, n: nat)
    requires PoliteForever(cfg, run)
    ensures var c := At(cfg, run, n);
      Enabled(c.core, run(n)) && Polite(c, run(n)) && At(cfg, run, n + 1) == StepConn(cfg, c, run(n))
  {
    var es := Prefix(run, n + 1);
    assert PoliteRun(cfg, es);
    assert es[..n] == Prefix(run, n);
  }

  /** The transfer ends, given that the holder of its token is served at step j. */
  lemma {:induction false} EndsBySteps(cfg: Config, run: nat -> Event, i: nat, p: Phase, j: nat) returns (k: nat)
    requires PoliteForever(cfg, run) && Fair(cfg, run) && i <= j
    requires var c := At(cfg, run, i); c.core.client.Some? && LedgerOk(c) && Ending(ViewOf(c), p)
    requires Served(cfg, run, Holder(p), j)
    ensures i <= k && NoteTransOk in At(cfg, run, k).core.notes
    decreases Rank(At(cfg, run, i), p).0, Rank(At(cfg, run, i), p).1, Rank(At(cfg, run, i), p).2, j - i
  {
    hide StepConn, In, LedgerOk, ViewOf;
    var c := At(cfg, run, i);
    NextState(cfg, run, i);
    HolderIsReady(c, p);
    KeepsClient(cfg, c, p, run(i));
    var q;
    if Moves(Holder(p), run(i)) {
      q := HolderStep(cfg, c, run(i), p);
      if q == Closing {
        ClosingPosted(At(cfg, run, i + 1));
        return i + 1;
      }
    } else {
      q := OtherStep(cfg, c, run(i), p);
      if q == p && Rank(At(cfg, run, i + 1), q) == Rank(c, p) {
        k := EndsBySteps(cfg, run, i + 1, p, j);
        return;
      }
    }
    assert ServedLater(cfg, run, Holder(q), i + 1);
    var j' :| i + 1 <= j' && Served(cfg, run, Holder(q), j');
    k := EndsBySteps(cfg, run, i + 1, q, j');
  }

  /** A client that is polite does not hang up while a transfer is under way. */
  lemma KeepsClient(cfg: Config, c: Conn, p: Phase, e: Event)
    requires c.core.client.Some? && Ending(ViewOf(c), p) && Enabled(c.core, e) && Polite(c, e)
    ensures StepConn(cfg, c, e).core.client.Some?
  {
    assert ViewOf(c).tokens != NO_TOKENS;
  }

  lemma ClosingPosted(c: Conn)
    requires In(ViewOf(c), Closing)
    ensures NoteTransOk in c.core.notes
  {
    DataNotesMember(c.core.notes, NoteTransOk);
    assert NoteTransOk in ViewOf(c).tokens.notes;
  }

  // ---------------------------------------------------------------- what that means

  lemma EndsFairly(cfg: Config, run: nat -> Event, i: nat, p: Phase) returns (k: nat)
    requires PoliteForever(cfg, run) && Fair(cfg, run)
    requires var c := At(cfg, run, i); c.core.client.Some? && LedgerOk(c) && Ending(ViewOf(c), p)
    ensures i <= k && NoteTransOk in At(cfg, run, k).core.notes
  {
    hide In, LedgerOk, ViewOf, StepConn;
    assert ServedLater(cfg, run, Holder(p), i);
    var j :| i <= j && Served(cfg, run, Holder(p), j);
    k := EndsBySteps(cfg, run, i, p, j);
  }

  lemma StartedIsEnding(v: View, p: Phase)
    requires In(v, p) && v.action in {IndexDownload, FileDownload}
    ensures Ending(v, p) && v.up
  {
  }

  /** Every LIST or RETR that has been started ends with a 226, empty files and directories included. */
  lemma DownloadsEnd(cfg: Config, run: nat -> Event, i: nat) returns (k: nat)
    requires PoliteForever(cfg, run) && Fair(cfg, run)
    requires Action(At(cfg, run, i).core) in {IndexDownload, FileDownload}
    ensures i <= k && NoteTransOk in At(cfg, run, k).core.notes
  {
    hide In, LedgerOk, StepConn, Fair;
    var p := PoliteRunsKeepPhases(cfg, Prefix(run, i));
    StartedIsEnding(ViewOf(At(cfg, run, i)), p);
    k := EndsFairly(cfg, run, i, p);
  }

  lemma FinalFlush(cfg: Config, c: Conn)
    requires LedgerOk(c) && In(ViewOf(c), Uploading) && Enabled(c.core, EndOfData)
    ensures var v := ViewOf(StepConn(cfg, c, EndOfData));
      if Client(c.core).buf != [] then Ending(v, Uploading) else Stuck(v)
    ensures LedgerOk(StepConn(cfg, c, EndOfData)) && StepConn(cfg, c, EndOfData).core.client.Some?
  {
    hide Owed, Codes, Alternates, WriteAt, Payloads;
    StepEndOfData(cfg, c);
  }

  /** An upload whose final flush holds at least one byte ends with a 226. */
  lemma UploadsEnd(cfg: Config, run: nat -> Event, i: nat) returns (k: nat)
    requires PoliteForever(cfg, run) && Fair(cfg, run)
    requires run(i).EndOfData? && Client(At(cfg, run, i).core).buf != []
    ensures i <= k && NoteTransOk in At(cfg, run, k).core.notes
  {
    hide In, LedgerOk, Fair, StepConn;
    var c := At(cfg, run, i);
    NextState(cfg, run, i);
    assert c.core.client.Some?;
    var p := PoliteRunsKeepPhases(cfg, Prefix(run, i));
    ReceivingPhase(ViewOf(c), p);
    FinalFlush(cfg, c);
    k := EndsFairly(cfg, run, i + 1, Uploading);
  }

  // ---------------------------------------------------------------- the upload that does not end

  /** The data socket is closed and the final flush is, or was, empty. */
  ghost predicate Stuck(v: View) {
    if v.tokens.dtasks == [] then In(v, Stalled)
    else In(v, Uploading) && !v.connected && v.tokens.dtasks[|v.tokens.dtasks| - 1] == DiskStorOk([])
  }

  function StuckPhase(v: View): Phase {
    if v.tokens.dtasks == [] then Stalled else Uploading
  }

  lemma StuckDisk(v: View, o: Oracle)
    requires Stuck(v) && v.tokens.dtasks != []
    ensures Stuck(DiskNext(v, o))
  {
    hide WriteAt, Payloads, WriteChunk;
    FlushesTail(v.tokens.dtasks, v.connected);
    DiskUploading(v, o);
  }

  /** A client that waits for its 226 can neither hang up, nor connect, nor send. */
  lemma StuckClient(c: Conn, e: Event)
    requires Stuck(ViewOf(c)) && c.core.client.Some? && Enabled(c.core, e) && Polite(c, e)
    ensures !e.HangUp? && !e.Connect? && !e.Receive? && !e.EndOfData? && !e.Drain? && !e.Accept?
    ensures e.SessionStep? ==> !Carries(c.core.stasks[0])
    ensures !Free(c.core)
  {
    hide WriteAt, Payloads, Execute;
    if e.SessionStep? && Carries(c.core.stasks[0]) {
      TakeTask(c.core.stasks);
      CarriedTask(ViewOf(c), StuckPhase(ViewOf(c)));
    }
  }

  lemma StuckStep(cfg: Config, c: Conn, e: Event)
    requires LedgerOk(c) && Stuck(ViewOf(c)) && c.core.client.Some? && Enabled(c.core, e) && Polite(c, e)
    ensures LedgerOk(StepConn(cfg, c, e)) && Stuck(ViewOf(StepConn(cfg, c, e))) && StepConn(cfg, c, e).core.client.Some?
  {
    hide Owed, Codes, Alternates, WriteAt, Payloads, RollDisk, RollSession, LedgerOk;
    var p := StuckPhase(ViewOf(c));
    StuckClient(c, e);
    match e {
      case Input(_) => StepInput(cfg, c, e); StuckInput(cfg, c, e);
      case Write(_) => StepInput(cfg, c, e); StuckInput(cfg, c, e);
      case Notify(port) => StuckNote(c); QuietReply(cfg, c, port, p);
      case SessionStep => QuietTask(cfg, c, p);
      case DiskStep(o) => DiskView(cfg, c, o); StuckDisk(ViewOf(c), o);
      case _ =>
    }
  }

  lemma StuckInput(cfg: Config, c: Conn, e: Event)
    requires LedgerOk(c) && (e.Input? || e.Write?) && Enabled(c.core, e)
    ensures LedgerOk(StepConn(cfg, c, e))
  {
    StepInput(cfg, c, e);
  }

  lemma StuckNote(c: Conn)
    requires Stuck(ViewOf(c)) && c.core.notes != []
    ensures c.core.notes[0].NoteReply?
  {
    hide WriteAt, Payloads;
    assert DataNotes(c.core.notes) == [];
  }

  /** An upload whose final flush is empty never gets its 226, whatever the workers do. */
  lemma {:induction false} EmptyFlushNeverEnds(cfg: Config, run: nat -> Event, i: nat, k: nat)
    requires PoliteForever(cfg, run) && i < k
    requires run(i).EndOfData? && Client(At(cfg, run, i).core).buf == []
    ensures var c := At(cfg, run, k);
      && LedgerOk(c) && Stuck(ViewOf(c)) && c.core.client.Some?
      && NoteTransOk !in c.core.notes && TaskTransOk !in c.core.stasks
  {
    hide In, LedgerOk, StepConn, ViewOf, Polite, Enabled;
    var c := At(cfg, run, k - 1);
    NextState(cfg, run, k - 1);
    if k == i + 1 {
      EmptyFlush(cfg, run, i);
    } else {
      EmptyFlushNeverEnds(cfg, run, i, k - 1);
      StuckStep(cfg, c, run(k - 1));
    }
    StuckSilent(At(cfg, run, k));
  }

  lemma EmptyFlush(cfg: Config, run: nat -> Event, i: nat)
    requires PoliteForever(cfg, run) && run(i).EndOfData? && Client(At(cfg, run, i).core).buf == []
    ensures var c := At(cfg, run, i + 1);
      LedgerOk(c) && Stuck(ViewOf(c)) && c.core.client.Some?
  {
    hide In, LedgerOk, StepConn, Stuck;
    var c := At(cfg, run, i);
    NextState(cfg, run, i);
    assert c.core.client.Some?;
    var p := PoliteRunsKeepPhases(cfg, Prefix(run, i));
    ReceivingPhase(ViewOf(c), p);
    FinalFlush(cfg, c);
  }

  lemma StuckSilent(c: Conn)
    requires Stuck(ViewOf(c))
    ensures NoteTransOk !in c.core.notes && TaskTransOk !in c.core.stasks
  {
    if TaskTransOk in c.core.stasks || NoteTransOk in c.core.notes {
      Guarantees.EndPhase(c, StuckPhase(ViewOf(c)));
    }
  }

  /** The 226 of an upload is posted if and only if something is left in the buffer when the client closes. */
  lemma UploadEndsIff(cfg: Config, run: nat -> Event, i: nat)
    requires PoliteForever(cfg, run) && Fair(cfg, run) && run(i).EndOfData?
    ensures Client(At(cfg, run, i).core).buf != [] <==> exists k: nat :: i < k && TransOkAt(cfg, run, k)
  {
    if Client(At(cfg, run, i).core).buf != [] {
      var k := UploadsEnd(cfg, run, i);
      NotYet(cfg, run, i);
      assert TransOkAt(cfg, run, k);
    } else {
      forall k: nat | i < k
        ensures !TransOkAt(cfg, run, k)
      {
        EmptyFlushNeverEnds(cfg, run, i, k);
      }
    }
  }

  ghost predicate TransOkAt(cfg: Config, run: nat -> Event, k: nat)
    requires PoliteForever(cfg, run)
  {
    NoteTransOk in At(cfg, run, k).core.notes
  }

  lemma NotYet(cfg: Config, run: nat -> Event, i: nat)
    requires PoliteForever(cfg, run) && run(i).EndOfData?
    ensures !TransOkAt(cfg, run, i)
  {
    NextState(cfg, run, i);
    var c := At(cfg, run, i);
    var p := PoliteRunsKeepPhases(cfg, Prefix(run, i));
    ReceivingPhase(ViewOf(c), p);
    if TransOkAt(cfg, run, i) {
      Guarantees.EndPhase(c, p);
    }
  }
}
