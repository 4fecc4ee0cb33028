/** Runs that show where a property fails: a login that outlives its client, an upload that never ends. */
module Witnesses {
  import opened Types
  import opened Protocol
  import opened History
  import opened Gates
  import opened Transfers
  import opened Liveness
  import opened Inheritance
  import opened Connections
  import FileIndex

  // ---------------------------------------------------------------- building runs

  lemma Nothing(cfg: Config)
    ensures PoliteRun(cfg, []) && After(cfg, []) == NEW_CONN
  {
  }

  /** A run and where it ends, one event further. */
  lemma Next(cfg: Config, es: seq<Event>, c: Conn, e: Event) returns (es': seq<Event>, c': Conn)
    requires Run(cfg, es) && c == After(cfg, es) && Enabled(c.core, e)
    ensures es' == es + [e] && Run(cfg, es') && c' == After(cfg, es') && c' == StepConn(cfg, c, e)
    ensures PoliteRun(cfg, es) && Polite(c, e) ==> PoliteRun(cfg, es')
  {
    hide Enabled, StepConn, Polite;
    RunSnoc(cfg, es, e);
    es', c' := es + [e], StepConn(cfg, c, e);
    assert es'[..|es|] == es;
  }

  /** Nothing of this connection is waiting for the event loop or the session worker. */
  predicate Quiet(c: Core) {
    c.client.Some? && c.session.Some? && c.notes == [] && c.stasks == []
  }

  /** A client connects and is greeted. */
  lemma Enter(cfg: Config, es: seq<Event>, c: Conn) returns (es': seq<Event>, c': Conn)
    requires Run(cfg, es) && c == After(cfg, es)
    requires c.core.client.None? && c.core.notes == [] && c.core.stasks == []
    ensures Run(cfg, es') && c' == After(cfg, es') && (PoliteRun(cfg, es) ==> PoliteRun(cfg, es'))
    ensures c'.core == c.core.(client := Some(NEW_CLIENT.(writeQ := [220], writeArmed := true)),
                               session := if c.core.session.Some? then c.core.session else Some(NEW_SESSION))
    ensures c'.hist.access == Access(false, LoggedIn(c.core))
  {
    hide Run, After, PoliteRun, RecordFlow, FactsOf, RecordPosted, RecordDelivered, RecordReplies;
    es', c' := Next(cfg, es, c, Accept);
    es', c' := Next(cfg, es', c', SessionStep);
    assert c'.core.dtasks == c.core.dtasks && c'.core.notes == [NoteReply(220)];
    es', c' := Next(cfg, es', c', Notify(0));
    assert c'.core.client.value.writeQ == [220];
    assert c'.core.stasks == [] && c'.core.notes == [];
  }

  /** The client sends a command and the session worker executes it. */
  lemma Order(cfg: Config, es: seq<Event>, c: Conn, cmd: Command) returns (es': seq<Event>, c': Conn)
    requires Run(cfg, es) && c == After(cfg, es) && Quiet(c.core) && !Crashes(c.core.session.value, cmd)
    ensures Run(cfg, es') && c' == After(cfg, es')
    ensures PoliteRun(cfg, es) && (cmd.Pasv? || cmd.Appe? ==> Free(c.core)) ==> PoliteRun(cfg, es')
    ensures var r := Execute(c.core.session.value, cmd);
      c'.core == c.core.(session := r.session, notes := r.notes, dtasks := c.core.dtasks + r.dtasks)
    ensures !cmd.Pass? ==> c'.hist.access == c.hist.access
  {
    hide Run, After, PoliteRun, RecordFlow, FactsOf, RecordPosted, RecordDelivered, RecordReplies, Execute;
    es', c' := Next(cfg, es, c, Input(Whole(cmd)));
    assert DataTasks(c'.core.stasks) == DataTasks(c'.core.stasks[1..]);
    es', c' := Next(cfg, es', c', SessionStep);
  }

  /** The event loop takes the one reply in the socketpair. */
  lemma Answered(cfg: Config, es: seq<Event>, c: Conn) returns (es': seq<Event>, c': Conn)
    requires Run(cfg, es) && c == After(cfg, es)
    requires c.core.client.Some? && |c.core.notes| == 1 && c.core.notes[0].NoteReply?
    ensures Run(cfg, es') && c' == After(cfg, es') && (PoliteRun(cfg, es) ==> PoliteRun(cfg, es'))
    ensures c'.core.client.Some? && c'.core == c.core.(client := c'.core.client, notes := [])
    ensures var q := c.core.client.value.writeQ + [c.core.notes[0].code];
      c'.core.client.value == c.core.client.value.(writeQ := q, writeArmed := true)
    ensures c'.hist.access == c.hist.access
    ensures c'.hist.flow.mode == c.hist.flow.mode
    ensures c'.hist.flow.greeted <==> c.hist.flow.greeted || c.core.notes[0] == NoteReply(150)
  {
    hide Run, After, PoliteRun, FactsOf, RecordPosted, RecordDelivered, RecordReplies;
    es', c' := Next(cfg, es, c, Notify(0));
  }

  /** PASV: the event loop listens on `port` and the session worker answers 227. */
  lemma Passive(cfg: Config, es: seq<Event>, c: Conn, port: int) returns (es': seq<Event>, c': Conn)
    requires Run(cfg, es) && c == After(cfg, es) && Quiet(c.core) && LoggedIn(c.core)
    requires cfg.startPort < port < cfg.endPort && port != -1
    ensures Run(cfg, es') && c' == After(cfg, es')
    ensures PoliteRun(cfg, es) && Free(c.core) ==> PoliteRun(cfg, es')
    ensures c'.core.client.Some? && c'.core.client.value == c.core.client.value.(
      listening := true, writeQ := c.core.client.value.writeQ + [227], writeArmed := true)
    ensures c'.core == c.core.(client := c'.core.client, session := Some(c.core.session.value.(action := PasvOk)))
    ensures c'.hist.access == c.hist.access
  {
    hide Run, After, PoliteRun, RecordFlow, FactsOf, RecordPosted, RecordDelivered, RecordReplies;
    es', c' := Order(cfg, es, c, Pasv);
    assert c.core.dtasks + [] == c.core.dtasks;
    es', c' := Next(cfg, es', c', Notify(port));
    es', c' := Next(cfg, es', c', SessionStep);
    es', c' := Answered(cfg, es', c');
  }

  // ---------------------------------------------------------------- a login that outlives its client

  /** A client logs in as Anonymous and hangs up; its session stays. */
  lemma LoginAndLeave(cfg: Config) returns (es: seq<Event>, c: Conn)
    ensures Run(cfg, es) && c == After(cfg, es)
    ensures c.core == NEW_CORE.(session := Some(NEW_SESSION.(login := true, name := Anonymous)))
  {
    hide Run, After, PoliteRun, RecordFlow, FactsOf, RecordPosted, RecordDelivered, RecordReplies;
    Nothing(cfg);
    es, c := Enter(cfg, [], NEW_CONN);
    es, c := Order(cfg, es, c, User(true, false, None));
    es, c := Answered(cfg, es, c);
    es, c := Order(cfg, es, c, Pass(true));
    es, c := Answered(cfg, es, c);
    es, c := Next(cfg, es, c, HangUp);
    es, c := Next(cfg, es, c, SessionStep);
  }

  /** The next client of the descriptor sends PASV and LIST, no USER and no PASS, and its listing is started. */
  lemma StaleLogin(cfg: Config, port: int) returns (es: seq<Event>)
    requires cfg.startPort < port < cfg.endPort && port != -1
    ensures Run(cfg, es)
    ensures var c := After(cfg, es);
      c.core.client.Some? && !c.hist.access.own && c.hist.access.kept && DiskIndexStart in c.core.dtasks
  {
    hide Run, After, PoliteRun, RecordFlow, FactsOf, RecordPosted, RecordDelivered, RecordReplies;
    var c;
    es, c := LoginAndLeave(cfg);
    es, c := Enter(cfg, es, c);
    es, c := Passive(cfg, es, c, port);
    es, c := Order(cfg, es, c, List);
    es, c := Next(cfg, es, c, Connect);
    es, c := Next(cfg, es, c, SessionStep);
  }

  /** A client hangs up before its greeting is read, and the next one of the descriptor is to get it. */
  lemma StaleReply(cfg: Config) returns (es: seq<Event>)
    ensures Run(cfg, es)
    ensures var c := After(cfg, es);
      c.core.client == Some(NEW_CLIENT) && c.core.stasks == [TaskGone, TaskAccept] && c.hist.posted == [220]
  {
    hide Run, After, PoliteRun, RecordFlow, FactsOf, RecordAccess;
    Nothing(cfg);
    var c;
    es, c := Next(cfg, [], NEW_CONN, Accept);
    es, c := Next(cfg, es, c, SessionStep);
    assert c.core.notes == [NoteReply(220)] && c.core.stasks == [];
    es, c := Next(cfg, es, c, HangUp);
    es, c := Next(cfg, es, c, Accept);
    assert Codes([NoteReply(220)]) == [220] + Codes([]);
  }

  /** A client sends USER and hangs up before it is handled: the answer goes to the next client of the descriptor. */
  lemma StaleAnswer(cfg: Config) returns (before: seq<Event>, since: seq<Event>)
    ensures Run(cfg, before + [Accept] + since)
    ensures Run(cfg, before) && After(cfg, before).core.notes == []
    ensures var c := After(cfg, before + [Accept] + since);
      c.core.client == Some(NEW_CLIENT) && c.core.stasks == [TaskGone, TaskAccept] && c.hist.posted == [530]
  {
    hide Run, After, PoliteRun, RecordFlow, FactsOf, RecordAccess, RecordReplies, RecordDelivered;
    Nothing(cfg);
    var c, es;
    before, c := Enter(cfg, [], NEW_CONN);
    before, c := Next(cfg, before, c, Input(Whole(User(false, false, None))));
    before, c := Next(cfg, before, c, HangUp);
    assert c.core.notes == [] && c.core.stasks == [TaskRead(Whole(User(false, false, None))), TaskGone];
    es, c := Next(cfg, before, c, Accept);
    assert c.hist.posted == Codes([]) == [];
    es, c := Next(cfg, es, c, SessionStep);
    assert Codes([NoteReply(530)]) == [530] + Codes([]);
    since := [SessionStep];
  }

  /** A client sends PASV and hangs up before the event loop takes the notification; the next one is accepted. */
  lemma LeavePasv(cfg: Config) returns (es: seq<Event>, c: Conn, m: Marks)
    ensures Run(cfg, es) && c == After(cfg, es) && m == MarksAfter(cfg, es)
    ensures c.core.client == Some(NEW_CLIENT) && c.core.session.Some?
    ensures c.core.notes == [NotePasv] && c.core.stasks == [TaskGone, TaskAccept] && c.hist.posted == []
    ensures m.notes == [false] && m.stasks == [false, true] && m.posted == []
  {
    hide Run, After, PoliteRun, RecordFlow, FactsOf, RecordAccess, RecordReplies, RecordDelivered, MarksAfter;
    es, c := LogIn(cfg);
    es, c := Order(cfg, es, c, Pasv);
    m := MarksAfter(cfg, es);
    es, c, m := NextMarked(cfg, es, c, m, HangUp);
    es, c, m := NextMarked(cfg, es, c, m, Accept);
    assert Codes([NotePasv]) == [];
  }

  /** Its own greeting is posted first. */
  lemma GreetPasv(cfg: Config) returns (es: seq<Event>, c: Conn, m: Marks)
    ensures Run(cfg, es) && c == After(cfg, es) && m == MarksAfter(cfg, es)
    ensures c.core.client == Some(NEW_CLIENT) && c.core.session.Some?
    ensures c.core.notes == [NotePasv, NoteReply(220)] && c.core.stasks == [] && c.hist.posted == [220]
    ensures m.notes == [false, true] && m.stasks == [] && m.posted == [true]
  {
    hide Run, After, PoliteRun, RecordFlow, FactsOf, RecordAccess, RecordReplies, RecordDelivered, MarksAfter, Execute;
    es, c, m := LeavePasv(cfg);
    es, c, m := NextMarked(cfg, es, c, m, SessionStep);
    assert c.core.stasks == [TaskAccept] && m.stasks == [true] && c.core.notes == [NotePasv] && m.notes == [false];
    assert c.hist.posted == [] && m.posted == [];
    assert Codes([NoteReply(220)]) == [220] + Codes([]);
    es, c, m := NextMarked(cfg, es, c, m, SessionStep);
  }

  /** Its workers then answer for the former client: the new one is told of the port. */
  lemma StalePort(cfg: Config, port: int) returns (es: seq<Event>)
    requires cfg.startPort < port < cfg.endPort && port != -1
    ensures Run(cfg, es)
    ensures MarksAfter(cfg, es).posted == [true, false] && After(cfg, es).hist.posted == [220, 227]
  {
    hide Run, After, PoliteRun, RecordFlow, FactsOf, RecordAccess, RecordReplies, RecordDelivered, MarksAfter, Execute;
    var c, m;
    es, c, m := GreetPasv(cfg);
    es, c, m := NextMarked(cfg, es, c, m, Notify(port));
    assert c.core.stasks == [TaskPasv(port)] && m.stasks == [false];
    assert c.hist.posted == [220] && m.posted == [true];
    assert Codes([NoteReply(227)]) == [227] + Codes([]);
    es, c, m := NextMarked(cfg, es, c, m, SessionStep);
  }

  lemma NextMarked(cfg: Config, es: seq<Event>, c: Conn, m: Marks, e: Event)
    returns (es': seq<Event>, c': Conn, m': Marks)
    requires Run(cfg, es) && c == After(cfg, es) && m == MarksAfter(cfg, es) && Enabled(c.core, e)
    ensures es' == es + [e] && Run(cfg, es') && c' == After(cfg, es') == StepConn(cfg, c, e)
    ensures m' == MarksAfter(cfg, es') == StepMarks(cfg, c.core, m, e)
  {
    hide Enabled, StepConn, StepMarks;
    es', c' := Next(cfg, es, c, e);
    assert es'[..|es'| - 1] == es;
    m' := StepMarks(cfg, c.core, m, e);
  }

  // ---------------------------------------------------------------- the null pointers

  /** A client hangs up before its greeting is read: the next notification is for a client that is gone. */
  lemma GoneClient(cfg: Config) returns (es: seq<Event>)
    ensures Run(cfg, es)
    ensures var c := After(cfg, es).core; c.client.None? && c.notes == [NoteReply(220)] && Breaking(c)
  {
    hide Run, After, PoliteRun, RecordFlow, FactsOf, RecordAccess, RecordPosted, RecordDelivered, RecordReplies;
    Nothing(cfg);
    var c;
    es, c := Next(cfg, [], NEW_CONN, Accept);
    es, c := Next(cfg, es, c, SessionStep);
    es, c := Next(cfg, es, c, HangUp);
  }

  /** A client sends something without a line end. */
  lemma NoLineEnd(cfg: Config) returns (es: seq<Event>)
    ensures Run(cfg, es)
    ensures var c := After(cfg, es).core; c.session.Some? && c.stasks == [TaskRead(Unended)] && Breaking(c)
  {
    hide Run, After, PoliteRun, RecordFlow, FactsOf, RecordAccess, RecordPosted, RecordDelivered, RecordReplies;
    Nothing(cfg);
    var c;
    es, c := Enter(cfg, [], NEW_CONN);
    es, c := Next(cfg, es, c, Input(Unended));
  }

  /** A client with the right to upload names a target that change_path refuses. */
  lemma RefusedPath(cfg: Config, port: int) returns (es: seq<Event>)
    requires cfg.startPort < port < cfg.endPort && port != -1
    ensures Run(cfg, es)
    ensures var c := After(cfg, es).core; c.stasks == [TaskRead(Whole(Stor(Refused)))] && Breaking(c)
  {
    hide Run, After, PoliteRun, RecordFlow, FactsOf, RecordAccess, RecordPosted, RecordDelivered, RecordReplies;
    var c;
    es, c := LogIn(cfg);
    es, c := Passive(cfg, es, c, port);
    es, c := Next(cfg, es, c, Input(Whole(Stor(Refused))));
  }

  /** A client gives the built-in name, and a password that matches what the session happens to hold. */
  lemma NoAccount(cfg: Config) returns (es: seq<Event>)
    ensures Run(cfg, es)
    ensures var c := After(cfg, es).core; c.stasks == [TaskRead(Whole(Pass(true)))] && Breaking(c)
  {
    hide Run, After, PoliteRun, RecordFlow, FactsOf, RecordAccess, RecordPosted, RecordDelivered, RecordReplies;
    Nothing(cfg);
    var c;
    es, c := Enter(cfg, [], NEW_CONN);
    es, c := Order(cfg, es, c, User(false, true, None));
    es, c := Answered(cfg, es, c);
    es, c := Next(cfg, es, c, Input(Whole(Pass(true))));
  }

  // ---------------------------------------------------------------- a reply that is never sent

  /** The client has read every reply. */
  predicate Idle(c: Core) {
    Quiet(c) && c.client.value == NEW_CLIENT.(listening := c.client.value.listening) && c.dtasks == [] && c.disk.None?
  }

  /** The one reply queued is written. */
  lemma Told(cfg: Config, es: seq<Event>, c: Conn) returns (es': seq<Event>, c': Conn)
    requires Run(cfg, es) && PoliteRun(cfg, es) && c == After(cfg, es) && Quiet(c.core)
    requires c.core.client.value.writeArmed && |c.core.client.value.writeQ| == 1
    ensures Run(cfg, es') && PoliteRun(cfg, es') && c' == After(cfg, es')
    ensures c'.core == c.core.(client := Some(c.core.client.value.(writeQ := [], writeArmed := false)))
  {
    hide Run, After, PoliteRun, FactsOf, RecordFlow, RecordAccess, RecordPosted, RecordDelivered, RecordReplies;
    assert c.core.client.value.writeQ[1..] == [];
    es', c' := Next(cfg, es, c, Write(true));
  }

  /** The data socket of an accepted LIST is connected, and the disk worker reads the empty directory. */
  lemma OpenList(cfg: Config, es: seq<Event>, c: Conn) returns (es': seq<Event>, c': Conn)
    requires Run(cfg, es) && PoliteRun(cfg, es) && c == After(cfg, es) && Idle(c.core)
    requires c.core.client.value.listening && c.core.session.value.action == Listing
    ensures Run(cfg, es') && PoliteRun(cfg, es') && c' == After(cfg, es') && c'.core.session.Some?
    ensures c'.core == NEW_CORE.(
      client := Some(NEW_CLIENT.(listening := true, connected := true)), session := c'.core.session,
      disk := Some(DiskState(IndexFinish, Entries([]))), notes := [NoteReply(150), NoteData([])])
  {
    hide Run, After, PoliteRun, RecordFlow, FactsOf, RecordPosted, RecordDelivered, RecordReplies, RecordAccess,
      Execute;
    es', c' := Next(cfg, es, c, Connect);
    es', c' := Next(cfg, es', c', SessionStep);
    assert c'.core.dtasks == [DiskIndexStart] && c'.core.notes == [NoteReply(150)] && c'.core.stasks == [];
    EmptyPage();
    es', c' := Next(cfg, es', c', DiskStep(Oracle([], [], 0)));
  }

  /** The event loop queues the 150 and sends the empty chunk, which the disk worker takes for the end. */
  lemma SendList(cfg: Config, es: seq<Event>, c: Conn) returns (es': seq<Event>, c': Conn)
    requires Run(cfg, es) && PoliteRun(cfg, es) && c == After(cfg, es) && c.core.session.Some?
    requires c.core == NEW_CORE.(
      client := Some(NEW_CLIENT.(listening := true, connected := true)), session := c.core.session,
      disk := Some(DiskState(IndexFinish, Entries([]))), notes := [NoteReply(150), NoteData([])])
    ensures Run(cfg, es') && PoliteRun(cfg, es') && c' == After(cfg, es') && c'.core.session.Some?
    ensures c'.core == NEW_CORE.(
      client := Some(NEW_CLIENT.(listening := true, connected := true, writeQ := [150], writeArmed := true)),
      session := c.core.session, stasks := [TaskTransOk])
  {
    hide Run, After, PoliteRun, RecordFlow, FactsOf, RecordPosted, RecordDelivered, RecordReplies, RecordAccess,
      Execute;
    es', c' := Next(cfg, es, c, Notify(0));
    assert c'.core.client.value.writeQ == [150] && c'.core.notes == [NoteData([])];
    es', c' := Next(cfg, es', c', Notify(0));
    assert c'.core.client.value.dataQ == [OutBuf([], 0)] && c'.core.stasks == [];
    es', c' := Next(cfg, es', c', Drain(0));
    assert c'.core.client.value.dataQ == [] && c'.core.dtasks == [DiskWriteDone];
    es', c' := Next(cfg, es', c', DiskStep(Oracle([], [], 0)));
  }

  /** The 150 and the 226 are queued before either is written. */
  lemma EndList(cfg: Config, es: seq<Event>, c: Conn) returns (es': seq<Event>, c': Conn)
    requires Run(cfg, es) && PoliteRun(cfg, es) && c == After(cfg, es) && c.core.session.Some?
    requires c.core == NEW_CORE.(
      client := Some(NEW_CLIENT.(listening := true, connected := true, writeQ := [150], writeArmed := true)),
      session := c.core.session, stasks := [TaskTransOk])
    ensures Run(cfg, es') && PoliteRun(cfg, es') && c' == After(cfg, es')
    ensures c'.core == NEW_CORE.(
      client := Some(NEW_CLIENT.(writeQ := [150, 226], writeArmed := true)), session := c'.core.session)
  {
    hide Run, After, PoliteRun, RecordFlow, FactsOf, RecordPosted, RecordDelivered, RecordReplies, RecordAccess,
      Execute;
    es', c' := Next(cfg, es, c, SessionStep);
    assert c'.core.notes == [NoteTransOk] && c'.core.stasks == [];
    es', c' := Next(cfg, es', c', Notify(0));
    assert c'.core.client.value.writeQ == [150, 226];
  }

  lemma EmptyPage()
    ensures ListPage(FileIndex.Listable([])) == (DiskState(IndexFinish, Entries([])), [])
  {
  }

  /**
   A polite client has its directory listed and reads every reply at once, and yet the 226 stays in the write
   queue: nothing at all can happen until the client sends something or hangs up.
   */
  lemma UnsentReply(cfg: Config, port: int) returns (es: seq<Event>)
    requires cfg.startPort < port < cfg.endPort && port != -1
    ensures Run(cfg, es) && PoliteRun(cfg, es)
    ensures var c := After(cfg, es).core;
      LeftBehind(c) && c.client.value.writeQ == [226] && forall e :: Enabled(c, e) ==> e.Input? || e.HangUp?
  {
    hide Run, After, PoliteRun, RecordFlow, FactsOf, RecordPosted, RecordDelivered, RecordReplies, RecordAccess;
    var c;
    es, c := Prepare(cfg, port);
    es, c := Order(cfg, es, c, List);
    es, c := OpenList(cfg, es, c);
    es, c := SendList(cfg, es, c);
    es, c := EndList(cfg, es, c);
    assert c.core.client.value.writeQ[1..] == [226];
    es, c := Next(cfg, es, c, Write(true));
  }

  /** A client that reads every reply before it goes on has logged in and prepared a connection. */
  lemma Prepare(cfg: Config, port: int) returns (es: seq<Event>, c: Conn)
    requires cfg.startPort < port < cfg.endPort && port != -1
    ensures Run(cfg, es) && PoliteRun(cfg, es) && c == After(cfg, es) && Idle(c.core)
    ensures c.core.client.value.listening && c.core.session.value.login && c.core.session.value.action == PasvOk
  {
    hide Run, After, PoliteRun, RecordFlow, FactsOf, RecordPosted, RecordDelivered, RecordReplies;
    Nothing(cfg);
    es, c := Enter(cfg, [], NEW_CONN);
    es, c := Told(cfg, es, c);
    es, c := Order(cfg, es, c, User(true, false, None));
    es, c := Answered(cfg, es, c);
    es, c := Told(cfg, es, c);
    es, c := Order(cfg, es, c, Pass(true));
    es, c := Answered(cfg, es, c);
    es, c := Told(cfg, es, c);
    es, c := Passive(cfg, es, c, port);
    es, c := Told(cfg, es, c);
  }

  // ---------------------------------------------------------------- an upload that never ends

  /** The data socket is connected: the file is opened and the client gets its 150. */
  lemma GreetUpload(cfg: Config, es: seq<Event>, c: Conn) returns (es': seq<Event>, c': Conn)
    requires Run(cfg, es) && PoliteRun(cfg, es) && c == After(cfg, es) && Quiet(c.core) && Free(c.core)
    requires c.core.session.value.action == Storing && c.core.session.value.rest == 0
    requires c.core.client.value.listening && !c.core.client.value.connected && c.core.client.value.buf == []
    ensures Run(cfg, es') && PoliteRun(cfg, es') && c' == After(cfg, es') && Greeted(c')
  {
    hide Run, After, PoliteRun, FactsOf, RecordPosted, RecordDelivered, RecordReplies, Execute;
    es', c' := Next(cfg, es, c, Connect);
    es', c' := Next(cfg, es', c', SessionStep);
    assert c'.core.dtasks == [DiskStorStart(0)];
    es', c' := Next(cfg, es', c', DiskStep(Oracle([], [], 0)));
    es', c' := Next(cfg, es', c', SessionStep);
    es', c' := Answered(cfg, es', c');
  }

  /** A polite client opens an upload and has sent nothing yet. */
  lemma OpenUpload(cfg: Config, port: int) returns (es: seq<Event>, c: Conn)
    requires cfg.startPort < port < cfg.endPort && port != -1
    ensures Run(cfg, es) && PoliteRun(cfg, es) && c == After(cfg, es) && Greeted(c)
  {
    hide Run, After, PoliteRun, RecordFlow, FactsOf, RecordPosted, RecordDelivered, RecordReplies;
    Nothing(cfg);
    es, c := LogIn(cfg);
    es, c := Passive(cfg, es, c, port);
    es, c := Order(cfg, es, c, Stor(Missing));
    es, c := GreetUpload(cfg, es, c);
  }

  /** A polite client logs in to an account that may upload. */
  lemma LogIn(cfg: Config) returns (es: seq<Event>, c: Conn)
    ensures Run(cfg, es) && PoliteRun(cfg, es) && c == After(cfg, es) && Quiet(c.core) && Free(c.core)
      && LoggedIn(c.core)
    ensures c.core.session.value.rights.upload && c.core.session.value.rest == 0
    ensures c.core.client.value.buf == [] && !c.core.client.value.connected
  {
    hide Run, After, PoliteRun, RecordFlow, FactsOf, RecordPosted, RecordDelivered, RecordReplies;
    Nothing(cfg);
    es, c := Enter(cfg, [], NEW_CONN);
    es, c := Order(cfg, es, c, User(false, false, Some(UserEntry(Rights(true, true), false))));
    es, c := Answered(cfg, es, c);
    es, c := Order(cfg, es, c, Pass(true));
    es, c := Answered(cfg, es, c);
  }

  /** The run `es`, then the end of the data and its disk task, then commands that never become complete. */
  function Endless(es: seq<Event>): nat -> Event {
    (n: nat) =>
      if n < |es| then es[n]
      else if n == |es| then EndOfData
      else if n == |es| + 1 then DiskStep(Oracle([], [], 0))
      else if (n - |es|) % 2 == 0 then Input(Partial)
      else SessionStep
  }

  lemma {:induction false} PolitePrefix(cfg: Config, es: seq<Event>, n: nat)
    requires PoliteRun(cfg, es) && n <= |es|
    ensures PoliteRun(cfg, es[..n])
    decreases |es|
  {
    if n < |es| {
      PolitePrefix(cfg, es[..|es| - 1], n);
      assert es[..|es| - 1][..n] == es[..n];
    } else {
      assert es[..n] == es;
    }
  }

  lemma PrefixNext(run: nat -> Event, n: nat)
    ensures Prefix(run, n + 1) == Prefix(run, n) + [run(n)]
  {
  }

  /** Where the endless run is after its upload has ended with an empty flush. */
  predicate Resting(c: Core, waiting: bool) {
    && c.client.Some? && c.session.Some? && c.notes == [] && c.dtasks == [] && !c.client.value.connected
    && c.stasks == if waiting then [TaskRead(Partial)] else []
  }

  /** Where an upload is that has been greeted and whose client has sent nothing. */
  predicate Greeted(c: Conn) {
    && Quiet(c.core) && c.core.dtasks == [] && c.core.client.value.connected && c.core.client.value.buf == []
    && c.core.disk.Some? && c.core.disk.value.source.Writing? && c.hist.flow.mode == Upload && c.hist.flow.greeted
  }

  /** The data socket is closed, and the disk worker finds nothing to write. */
  lemma FlushNothing(cfg: Config, c: Conn)
    requires Greeted(c)
    ensures var c' := StepConn(cfg, c, EndOfData);
      && Polite(c, EndOfData) && c'.core.dtasks == [DiskStorOk([])]
      && Resting(StepConn(cfg, c', DiskStep(Oracle([], [], 0))).core, false)
  {
    hide RecordFlow, FactsOf, WriteAt;
  }

  /** Half a command, and the session worker's turn for it. */
  lemma RestOn(cfg: Config, c: Conn, waiting: bool)
    requires Resting(c.core, waiting)
    ensures var e := if waiting then SessionStep else Input(Partial);
      Enabled(c.core, e) && Polite(c, e) && Resting(StepConn(cfg, c, e).core, !waiting)
  {
    hide RecordFlow, FactsOf, RollDisk, Execute;
  }

  lemma {:induction false} EndlessRun(cfg: Config, es: seq<Event>, n: nat)
    requires Run(cfg, es) && PoliteRun(cfg, es) && n >= |es| + 2 && Greeted(After(cfg, es))
    ensures Run(cfg, Prefix(Endless(es), n)) && PoliteRun(cfg, Prefix(Endless(es), n))
    ensures Resting(After(cfg, Prefix(Endless(es), n)).core, (n - |es|) % 2 == 1)
    decreases n
  {
    hide Run, PoliteRun, After, StepConn, Resting, Greeted, Polite, Enabled;
    var run := Endless(es);
    var before, c;
    PrefixNext(run, n - 1);
    if n == |es| + 2 {
      assert Prefix(run, |es|) == es;
      PrefixNext(run, |es|);
      FlushNothing(cfg, After(cfg, es));
      assert Enabled(After(cfg, es).core, EndOfData) by { CanEnd(After(cfg, es)); }
      before, c := Next(cfg, es, After(cfg, es), EndOfData);
      assert Enabled(c.core, run(n - 1)) && Polite(c, run(n - 1)) by { CanFlush(c, run(n - 1)); }
    } else {
      EndlessRun(cfg, es, n - 1);
      before, c := Prefix(run, n - 1), After(cfg, Prefix(run, n - 1));
      RestOn(cfg, c, (n - 1 - |es|) % 2 == 1);
    }
    var all, c' := Next(cfg, before, c, run(n - 1));
  }

  lemma CanEnd(c: Conn)
    requires Greeted(c)
    ensures Enabled(c.core, EndOfData)
  {
  }

  lemma CanFlush(c: Conn, e: Event)
    requires c.core.dtasks != [] && e.DiskStep?
    ensures Enabled(c.core, e) && Polite(c, e)
  {
  }

  /**
   A polite client whose workers are all served for ever, and whose upload of an empty file never gets its 226:
   the data socket is closed at event `i` with an empty buffer.
   */
  lemma SilentUpload(cfg: Config, port: int) returns (run: nat -> Event, i: nat)
    requires cfg.startPort < port < cfg.endPort && port != -1
    ensures PoliteForever(cfg, run) && Fair(cfg, run)
    ensures run(i).EndOfData? && Client(At(cfg, run, i).core).buf == []
    ensures forall k: nat :: i < k ==> NoteTransOk !in At(cfg, run, k).core.notes
  {
    hide After, In, LedgerOk, StepConn;
    var es, c := OpenUpload(cfg, port);
    run, i := Endless(es), |es|;
    forall n: nat ensures PoliteRun(cfg, Prefix(run, n)) {
      if n >= |es| + 2 {
        EndlessRun(cfg, es, n);
      } else {
        EndlessRun(cfg, es, |es| + 2);
        PolitePrefix(cfg, Prefix(run, |es| + 2), n);
        assert Prefix(run, |es| + 2)[..n] == Prefix(run, n);
      }
    }
    forall w: Worker, m: nat ensures ServedLater(cfg, run, w, m) {
      var j := |es| + 2 + 2 * m;
      EndlessRun(cfg, es, j);
      assert Served(cfg, run, w, j);
    }
    assert Prefix(run, i) == es;
    forall k: nat | i < k ensures NoteTransOk !in At(cfg, run, k).core.notes {
      EmptyFlushNeverEnds(cfg, run, i, k);
    }
  }
}
