/**
 The server: its event loop, session workers and disk workers over the shared queues and maps.
 Every method is one event of one connection, and does to that connection exactly what Protocol.Step
 does, and nothing to any other, however many workers there are and in whatever order they run.
 */
module Server {
  import opened Types
  import opened Protocol
  import opened History
  import opened Shards
  import opened Objects
  import opened Gates
  import opened Transfers
  import opened Guarantees
  import FileIndex
  import Sessions

  function Tag<T>(fd: nat, xs: seq<T>): seq<(nat, T)> {
    if xs == [] then [] else [(fd, xs[0])] + Tag(fd, xs[1..])
  }

  lemma {:induction false} ForTag<T>(fd: nat, xs: seq<T>, g: nat)
    ensures For(Tag(fd, xs), g) == if g == fd then xs else []
  {
    if xs != [] {
      ForTag(fd, xs[1..], g);
      assert Tag(fd, xs)[1..] == Tag(fd, xs[1..]);
    }
  }

  lemma TagAppend<T>(q: seq<(nat, T)>, fd: nat, xs: seq<T>)
    ensures forall g: nat :: For(q + Tag(fd, xs), g) == For(q, g) + if g == fd then xs else []
  {
    forall g: nat ensures For(q + Tag(fd, xs), g) == For(q, g) + if g == fd then xs else [] {
      ForAppend(q, Tag(fd, xs), g);
      ForTag(fd, xs, g);
    }
  }

  lemma TakenOne<T>(q: seq<(nat, T)>, fd: nat, ts: seq<T>)
    requires |ts| <= 1
    ensures forall g: nat ::
      For(q + (if ts == [] then [] else [(fd, ts[0])]), g) == For(q, g) + if g == fd then ts else []
  {
    forall g: nat
      ensures For(q + (if ts == [] then [] else [(fd, ts[0])]), g) == For(q, g) + if g == fd then ts else []
    {
      if ts == [] {
        assert q + [] == q && For(q, g) + [] == For(q, g);
      } else {
        ForSnoc(q, fd, ts[0], g);
        assert ts == [ts[0]];
      }
    }
  }

  /** The task that a session worker, or a disk worker, takes in a step. */
  function SessionTaken(c: Core, e: Event): seq<STask> {
    if e.SessionStep? && c.stasks != [] then [c.stasks[0]] else []
  }

  function DiskTaken(c: Core, e: Event): seq<DTask> {
    if e.DiskStep? && c.dtasks != [] then [c.dtasks[0]] else []
  }

  /** The session after a sequence of tasks, handled one after the other. */
  function FoldSession(cfg: Config, ts: seq<STask>): Option<SessionState> {
    if ts == [] then None
    else
      var before := FoldSession(cfg, ts[..|ts| - 1]);
      if Fatal(before, ts[|ts| - 1]) then before else RollSession(cfg, before, ts[|ts| - 1]).session
  }

  /** The disk_info after a sequence of tasks, each with what the disk held at the time. */
  function FoldDisk(ts: seq<DTask>, os: seq<Oracle>): Option<DiskState>
    requires |ts| == |os|
  {
    if ts == [] then None
    else RollDisk(FoldDisk(ts[..|ts| - 1], os[..|os| - 1]), ts[|ts| - 1], os[|os| - 1]).disk
  }

  lemma FoldSessionSnoc(cfg: Config, ts: seq<STask>, t: STask)
    requires !Fatal(FoldSession(cfg, ts), t)
    ensures FoldSession(cfg, ts + [t]) == RollSession(cfg, FoldSession(cfg, ts), t).session
  {
    assert (ts + [t])[..|ts|] == ts;
  }

  lemma FoldDiskSnoc(ts: seq<DTask>, os: seq<Oracle>, t: DTask, o: Oracle)
    requires |ts| == |os|
    ensures FoldDisk(ts + [t], os + [o]) == RollDisk(FoldDisk(ts, os), t, o).disk
  {
    assert (ts + [t])[..|ts|] == ts && (os + [o])[..|os|] == os;
  }

  /** What the disk held in each disk step of a run. */
  function Oracles(es: seq<Event>): seq<Oracle> {
    if es == [] then []
    else Oracles(es[..|es| - 1]) + if es[|es| - 1].DiskStep? then [es[|es| - 1].oracle] else []
  }

  lemma OraclesSnoc(es: seq<Event>, e: Event)
    ensures Oracles(es + [e]) == Oracles(es) + if e.DiskStep? then [e.oracle] else []
  {
    assert (es + [e])[..|es|] == es;
  }

  /** What the kernel and the scheduler may make happen next: a ready descriptor, or a turn of a worker. */
  datatype Call =
    | OfConnection(fd: nat, event: Event)
    | OfSocketpair(port: int)
    | OfSessionWorker(worker: nat)
    | OfDiskWorker(worker: nat, oracle: Oracle)

  class Server {
    const cfg: Config
    const sessionPool: Pool<STask>
    const diskPool: Pool<DTask>
    var notify: seq<(nat, Note)>       // the socketpair
    var clients: map<nat, TcpClient>   // m_client_map
    var sessions: map<nat, Session>    // m_session_map
    var disks: map<nat, DiskInfo>      // m_disk_info_map
    var crashed: bool                  // the process has followed a null pointer

    // -------------------------------------------------------------- abstraction

    ghost function Footprint(): set<object>
      reads this
    {
      {this, sessionPool, diskPool} + clients.Values + sessions.Values + disks.Values
    }

    ghost predicate Shape()
      reads *
    {
      && sessionPool.Valid() && diskPool.Valid() && sessionPool.shards == diskPool.shards
      && (forall fd :: fd in clients ==> clients[fd].fd == fd && |clients[fd].fileBuffer| <= FILEBUFWRITESIZE)
      && (forall fd :: fd in sessions ==> sessions[fd].fd == fd)
      && (forall fd :: fd in disks ==>
            disks[fd].fd == fd && disks[fd].Valid())
    }

    /** The part of the server that belongs to one descriptor. */
    ghost function Slice(fd: nat): Core
      requires Shape()
      reads *
    {
      Core(if fd in clients then Some(clients[fd].State()) else None,
           if fd in sessions then Some(sessions[fd].State()) else None,
           if fd in disks then Some(disks[fd].State()) else None,
           For(notify, fd), sessionPool.Pending(fd), diskPool.Pending(fd))
    }

    /** Connection `g` has not been touched: not its objects, not its messages. */
    twostate predicate Kept(g: nat)
      requires old(Shape()) && Shape()
      reads *
    {
      && (g in clients <==> g in old(clients))
      && (g in clients ==> clients[g] == old(clients[g]) && unchanged(clients[g]))
      && (g in sessions <==> g in old(sessions))
      && (g in sessions ==> sessions[g] == old(sessions[g]) && unchanged(sessions[g]))
      && (g in disks <==> g in old(disks))
      && (g in disks ==> disks[g] == old(disks[g]) && unchanged(disks[g]))
      && For(notify, g) == For(old(notify), g)
      && sessionPool.Pending(g) == old(sessionPool.Pending(g))
      && diskPool.Pending(g) == old(diskPool.Pending(g))
    }

    twostate predicate Untouched(fd: nat)
      requires old(Shape()) && Shape()
      reads *
    {
      forall g: nat :: g != fd ==> Kept(g)
    }

    /** The event `e` of connection `fd` has happened, and nothing else. */
    twostate predicate Stepped(fd: nat, e: Event)
      requires old(Shape()) && Enabled(old(Slice(fd)), e)
      reads *
    {
      && Shape()
      && Slice(fd) == Step(cfg, old(Slice(fd)), e)
      && sessionPool.taken == old(sessionPool.taken) + (if e.SessionStep? then [(fd, old(Slice(fd)).stasks[0])] else [])
      && diskPool.taken == old(diskPool.taken) + (if e.DiskStep? then [(fd, old(Slice(fd)).dtasks[0])] else [])
      && Untouched(fd)
      && (fd in clients ==> fresh(clients[fd]) || (fd in old(clients) && clients[fd] == old(clients)[fd]))
      && (fd in sessions ==> fresh(sessions[fd]) || (fd in old(sessions) && sessions[fd] == old(sessions)[fd]))
      && (fd in disks ==> fresh(disks[fd]) || (fd in old(disks) && disks[fd] == old(disks)[fd]))
    }

    /** A message of connection `fd` has ended the process; no other connection is touched. */
    twostate predicate Broke(fd: nat)
      requires old(Shape())
      reads *
    {
      && crashed && Shape() && Breaking(old(Slice(fd))) && Untouched(fd)
      && (forall g: nat :: g != fd ==> For(sessionPool.taken, g) == For(old(sessionPool.taken), g))
      && diskPool.taken == old(diskPool.taken)
      && clients == old(clients) && sessions == old(sessions) && disks == old(disks)
    }

    constructor (cfg: Config, sessionThreads: nat, diskThreads: nat)
      requires 0 < sessionThreads <= diskThreads
      ensures Shape() && !crashed && this.cfg == cfg && forall fd: nat :: Slice(fd) == NEW_CORE
      ensures sessionPool.taken == [] && diskPool.taken == [] && sessionPool.shards == sessionThreads
      ensures fresh(Footprint())
    {
      this.cfg := cfg;
      sessionPool := new Pool(sessionThreads, sessionThreads);
      diskPool := new Pool(diskThreads, sessionThreads);
      notify, clients, sessions, disks, crashed := [], map[], map[], map[], false;
    }

    // -------------------------------------------------------------- the event loop

    /** on_accept */
    method OnAccept(fd: nat)
      requires Shape() && Enabled(Slice(fd), Accept)
      modifies this`clients, sessionPool
      ensures Stepped(fd, Accept)
    {
      hide RollSession, RollDisk, HandleNote, HandleData, HandleDrain, HandleWrite, FileIndex.Chain,
        FileIndex.EntriesOf, Pool.Valid, Pool.Pending, DiskInfo.Valid, DiskInfo.State, Session.State;
      var client := new TcpClient(fd);
      clients := clients[fd := client];
      sessionPool.Post(fd, TaskAccept);
    }

    /** on_read, when read() returns some bytes */
    method OnRead(fd: nat, line: Line)
      requires Shape() && Enabled(Slice(fd), Input(line))
      modifies sessionPool
      ensures Stepped(fd, Input(line))
    {
      hide RollSession, RollDisk, HandleNote, HandleData, HandleDrain, HandleWrite, FileIndex.Chain,
        FileIndex.EntriesOf, Pool.Valid, Pool.Pending, DiskInfo.Valid, DiskInfo.State, Session.State;
      sessionPool.Post(fd, TaskRead(line));
    }

    /** on_read, when read() returns zero: the client is deleted, its session stays */
    method OnHangUp(fd: nat)
      requires Shape() && Enabled(Slice(fd), HangUp)
      modifies this`clients, sessionPool
      ensures Stepped(fd, HangUp)
    {
      hide RollSession, RollDisk, HandleNote, HandleData, HandleDrain, HandleWrite, FileIndex.Chain,
        FileIndex.EntriesOf, Pool.Valid, Pool.Pending, DiskInfo.Valid, DiskInfo.State, Session.State;
      clients := clients - {fd};
      sessionPool.Post(fd, TaskGone);
    }

    /**
     on_notify: the oldest notification, whosever it is; `port` is what the port search ends with.  The client
     is used before it is tested for NULL, so a notification for a client that is gone ends the process.
     */
    method OnNotify(port: int) returns (fd: nat)
      requires Shape() && notify != []
      modifies this`notify, this`crashed, sessionPool, if notify[0].0 in clients then {clients[notify[0].0]} else {}
      ensures fd == old(notify[0].0)
      ensures fd in old(clients) ==>
        Enabled(old(Slice(fd)), Notify(port)) && Stepped(fd, Notify(port)) && crashed == old(crashed)
      ensures fd !in old(clients) ==> crashed && Broke(fd)
    {
      hide Stepped, FileIndex.Chain, FileIndex.EntriesOf, Pool.Valid, Pool.Pending, DiskInfo.Valid, DiskInfo.State,
        Session.State, TcpClient.State;
      fd := notify[0].0;
      if fd in clients {
        NotifyClient(fd, port);
      } else {
        notify := notify[1..];
        crashed := true;
      }
    }

    /** The part of on_notify after the client has been found. */
    method NotifyClient(fd: nat, port: int)
      requires Shape() && notify != [] && notify[0].0 == fd && fd in clients
      modifies this`notify, clients[fd], sessionPool
      ensures Enabled(old(Slice(fd)), Notify(port)) && Stepped(fd, Notify(port))
    {
      hide RollSession, RollDisk, HandleNote, HandleData, HandleDrain, HandleWrite, FileIndex.Chain,
        FileIndex.EntriesOf, Pool.Valid, Pool.Pending, DiskInfo.Valid, DiskInfo.State, Session.State,
        TcpClient.State, Execute, StartTransfer, NextChunk, RollOpenDisk;
      var note := notify[0].1;
      notify := notify[1..];
      var posts := clients[fd].TakeNote(note, port);
      sessionPool.PostAll(fd, posts);
      assert Untouched(fd) by { forall g: nat | g != fd ensures Kept(g) { } }
    }

    /** data_accept */
    method DataAccept(fd: nat)
      requires Shape() && Enabled(Slice(fd), Connect)
      modifies clients[fd], sessionPool
      ensures Stepped(fd, Connect)
    {
      hide RollSession, RollDisk, HandleNote, HandleData, HandleDrain, HandleWrite, FileIndex.Chain,
        FileIndex.EntriesOf, Pool.Valid, Pool.Pending, DiskInfo.Valid, DiskInfo.State, Session.State;
      clients[fd].Connect();
      sessionPool.Post(fd, TaskDataAccept);
    }

    /** data_read, when read() returns some bytes */
    method DataRead(fd: nat, data: Bytes)
      requires Shape() && Enabled(Slice(fd), Receive(data))
      modifies clients[fd], diskPool
      ensures Stepped(fd, Receive(data))
    {
      hide RollSession, RollDisk, HandleNote, HandleData, HandleDrain, HandleWrite, FileIndex.Chain,
        FileIndex.EntriesOf, Pool.Valid, Pool.Pending, DiskInfo.Valid, DiskInfo.State, Session.State;
      if |clients[fd].fileBuffer| > FILEBUFWRITESIZE {
        assert false;  // exit( 1 )
      }
      var posts := clients[fd].TakeData(data);
      diskPool.PostAll(fd, posts);
    }

    /** data_read, when read() returns zero: the client has closed the data socket */
    method DataEnd(fd: nat)
      requires Shape() && Enabled(Slice(fd), EndOfData)
      modifies clients[fd], diskPool
      ensures Stepped(fd, EndOfData)
    {
      hide RollSession, RollDisk, HandleNote, HandleDrain, HandleWrite, FileIndex.Chain, FileIndex.EntriesOf,
        Pool.Valid, Pool.Pending, DiskInfo.Valid, DiskInfo.State, Session.State;
      var posts := clients[fd].EndData();
      diskPool.PostAll(fd, posts);
    }

    /** data_write, when write() accepts `count` bytes or as many as there are */
    method DataWrite(fd: nat, count: nat)
      requires Shape() && Enabled(Slice(fd), Drain(count))
      modifies clients[fd], diskPool
      ensures Stepped(fd, Drain(count))
    {
      hide RollSession, RollDisk, HandleNote, HandleData, HandleDrain, HandleWrite, FileIndex.Chain,
        FileIndex.EntriesOf, Pool.Valid, Pool.Pending, DiskInfo.Valid, DiskInfo.State, Session.State;
      var posts := clients[fd].SendData(count);
      diskPool.PostAll(fd, posts);
    }

    /** on_write, when write() accepts all of the first reply or not */
    method OnWrite(fd: nat, whole: bool)
      requires Shape() && Enabled(Slice(fd), Write(whole))
      modifies clients[fd]
      ensures Stepped(fd, Write(whole))
    {
      hide RollSession, RollDisk, HandleNote, HandleData, HandleDrain, HandleWrite, FileIndex.Chain,
        FileIndex.EntriesOf, Pool.Valid, Pool.Pending, DiskInfo.Valid, DiskInfo.State, Session.State;
      clients[fd].SendReply(whole);
    }

    // -------------------------------------------------------------- the session worker

    /** What executing command `c` does to the session and to the socketpair, or that it ends the process. */
    twostate predicate Executed(s: Session, c: Command)
      reads s, this
    {
      if Crashes(old(s.State()), c) then crashed && notify == old(notify)
      else
        var r := Execute(old(s.State()), c);
        crashed == old(crashed) && s.State() == r.session.value && notify == old(notify) + Tag(s.fd, r.notes)
    }

    /** session::post */
    method Reply(s: Session, code: nat)
      modifies this`notify
      ensures notify == old(notify) + Tag(s.fd, [NoteReply(code)])
    {
      notify := notify + [(s.fd, NoteReply(code))];
    }

    /** com_USER; the answers of the three comparisons are part of the command */
    method ComUser(s: Session, anonymous: bool, builtin: bool, entry: Option<UserEntry>)
      modifies this`notify, s
      ensures Executed(s, User(anonymous, builtin, entry))
    {
      if anonymous {
        s.name := Anonymous;
      }
      if builtin {
        s.name := Named;
        Reply(s, 331);
      } else if entry.Some? {
        s.info := Some(entry.value.rights);
        s.name := if entry.value.anonymous then Anonymous else Named;
        Reply(s, 331);
      } else {
        Reply(s, 530);
      }
    }

    /** com_PASS; set_permission reads the rights of user_info without asking whether there is one */
    method ComPass(s: Session, matches: bool)
      modifies this`notify, this`crashed, s
      ensures Executed(s, Pass(matches))
    {
      if s.name.Anonymous? {
        s.login := true;
        Reply(s, 230);
      } else if s.name.Named? && matches {
        s.login := true;
        if s.info.None? {
          crashed := true;
          return;
        }
        s.rights := s.info.value;
        Reply(s, 230);
      } else {
        Reply(s, 530);
      }
    }

    /** com_PASV */
    method ComPasv(s: Session)
      modifies this`notify, s
      ensures Executed(s, Pasv)
    {
      if !s.login {
        Reply(s, 530);
      } else {
        notify := notify + [(s.fd, NotePasv)];
      }
    }

    /** com_LIST */
    method ComList(s: Session)
      modifies this`notify, s
      ensures Executed(s, List)
    {
      if !s.login {
        Reply(s, 530);
      } else if s.dataAction != PasvOk {
        Reply(s, 425);
      } else {
        s.dataAction := Listing;
      }
    }

    /** set_file_name, which copies the NULL of a refused path */
    method SetFileName(target: Target)
      modifies this`crashed
      ensures crashed == (old(crashed) || target.Refused?)
    {
      if target.Refused? {
        crashed := true;
      }
    }

    /** com_STOR */
    method ComStor(s: Session, target: Target)
      requires !crashed
      modifies this`notify, this`crashed, s
      ensures Executed(s, Stor(target))
    {
      if !s.login {
        Reply(s, 530);
      } else if s.dataAction != PasvOk {
        Reply(s, 425);
      } else if !s.rights.upload {
        Reply(s, 550);
      } else {
        SetFileName(target);
        if crashed {
          return;
        }
        if !target.Missing? {
          Reply(s, 550);
        } else {
          s.dataAction := Storing;
        }
      }
    }

    /** com_APPE */
    method ComAppe(s: Session, target: Target)
      requires !crashed
      modifies this`notify, this`crashed, s
      ensures Executed(s, Appe(target))
    {
      if !s.login {
        Reply(s, 530);
      } else if !s.rights.upload {
        Reply(s, 550);
      } else {
        SetFileName(target);
        if crashed {
          return;
        }
        s.restSize := if target.Missing? then 0 else target.size;
        s.dataAction := Storing;
      }
    }

    /** com_RETR */
    method ComRetr(s: Session, target: Target)
      requires !crashed
      modifies this`notify, this`crashed, s
      ensures Executed(s, Retr(target))
    {
      if !s.login {
        Reply(s, 530);
      } else if s.dataAction != PasvOk {
        Reply(s, 425);
      } else if !s.rights.download {
        Reply(s, 550);
      } else {
        SetFileName(target);
        if crashed {
          return;
        }
        if !target.RegularFile? {
          Reply(s, 550);
        } else if s.restSize != 0 && target.size < s.restSize {
          Reply(s, 554);
        } else {
          s.dataAction := Retrieving;
        }
      }
    }

    /** com_REST */
    method ComRest(s: Session, offset: int)
      modifies this`notify, s
      ensures Executed(s, Rest(offset))
    {
      s.restSize := offset;
      Reply(s, 350);
    }

    /** run_fsm_command, for a complete line */
    method RunCommand(s: Session, c: Command)
      requires !crashed
      modifies this`notify, this`crashed, s
      ensures Executed(s, c)
    {
      match c {
        case User(anonymous, builtin, entry) => ComUser(s, anonymous, builtin, entry);
        case Pass(matches) => ComPass(s, matches);
        case Pasv => ComPasv(s);
        case List => ComList(s);
        case Stor(target) => ComStor(s, target);
        case Appe(target) => ComAppe(s, target);
        case Retr(target) => ComRetr(s, target);
        case Rest(offset) => ComRest(s, offset);
        case Info(reply) => Reply(s, InfoCode(reply));
      }
    }

    /** SESSION_TASK_DATA_ACCEPT: run_list_load, run_stor_load, run_retr_load */
    method RunLoad(s: Session)
      requires diskPool.Valid()
      modifies this`notify, s, diskPool
      ensures var r := StartTransfer(old(s.State()));
        && diskPool.Valid()
        && s.State() == r.session.value
        && notify == old(notify) + Tag(s.fd, r.notes)
        && diskPool.taken == old(diskPool.taken)
        && diskPool.Pending(s.fd) == old(diskPool.Pending(s.fd)) + r.dtasks
        && forall g: nat :: g != s.fd ==> diskPool.Pending(g) == old(diskPool.Pending(g))
    {
      hide Pool.Valid, Pool.Pending;
      match s.dataAction {
        case Listing =>
          s.dataAction := IndexDownload;
          Reply(s, 150);
          diskPool.Post(s.fd, DiskIndexStart);
        case Storing =>
          diskPool.Post(s.fd, DiskStorStart(s.restSize));
        case Retrieving =>
          s.dataAction := FileDownload;
          Reply(s, 150);
          diskPool.Post(s.fd, DiskRetrStart(s.restSize));
        case _ =>
      }
    }

    /** roll_state_machine for a session that exists */
    method RollExisting(s: Session, t: STask)
      requires diskPool.Valid() && !t.TaskAccept? && !crashed
      modifies this`notify, this`crashed, s, diskPool
      ensures crashed <==> Fatal(Some(old(s.State())), t)
      ensures crashed ==> notify == old(notify) && unchanged(diskPool)
      ensures !crashed ==> var r := RollSession(cfg, Some(old(s.State())), t);
        && diskPool.Valid()
        && Some(s.State()) == r.session
        && notify == old(notify) + Tag(s.fd, r.notes)
        && diskPool.taken == old(diskPool.taken)
        && diskPool.Pending(s.fd) == old(diskPool.Pending(s.fd)) + r.dtasks
        && forall g: nat :: g != s.fd ==> diskPool.Pending(g) == old(diskPool.Pending(g))
    {
      hide Pool.Valid, Pool.Pending;
      match t {
        case TaskRead(Unended) =>
          // get_recv_command finds no line end, and its NULL is copied
          crashed := true;
        case TaskRead(Whole(c)) =>
          RunCommand(s, c);
        case TaskPasv(port) =>
          if cfg.startPort < port < cfg.endPort {
            s.dataAction := PasvOk;
            Reply(s, 227);
          } else {
            Reply(s, 502);
          }
        case TaskDataAccept =>
          RunLoad(s);
        case TaskStorStart =>
          Reply(s, 150);
        case TaskTransOk =>
          s.dataAction := Waiting;
          notify := notify + [(s.fd, NoteTransOk)];
        case _ =>
      }
    }

    /** g_session_man -> seek_session( fd ) */
    ghost function SessionOf(fd: nat): Option<SessionState>
      reads this, sessions.Values
    {
      if fd in sessions then Some(sessions[fd].State()) else None
    }

    /** roll_state_machine; the new session of SESSION_TASK_CTRL_ACCEPT is only entered if there is none yet */
    method RollSessionTask(fd: nat, t: STask)
      requires diskPool.Valid() && (fd in sessions ==> sessions[fd].fd == fd) && !crashed
      modifies this`notify, this`sessions, this`crashed, diskPool, if fd in sessions then {sessions[fd]} else {}
      ensures crashed <==> Fatal(old(SessionOf(fd)), t)
      ensures crashed ==> notify == old(notify) && unchanged(diskPool) && sessions == old(sessions)
      ensures !crashed ==> var r := RollSession(cfg, old(SessionOf(fd)), t);
        && diskPool.Valid()
        && SessionOf(fd) == r.session
        && notify == old(notify) + Tag(fd, r.notes)
        && diskPool.taken == old(diskPool.taken)
        && diskPool.Pending(fd) == old(diskPool.Pending(fd)) + r.dtasks
        && forall g: nat :: g != fd ==> diskPool.Pending(g) == old(diskPool.Pending(g))
      ensures fd in sessions ==> sessions[fd].fd == fd
      ensures sessions == if fd in sessions then old(sessions)[fd := sessions[fd]] else old(sessions)
      ensures fd in old(sessions) ==> fd in sessions && sessions[fd] == old(sessions[fd])
      ensures fd !in old(sessions) && fd in sessions ==> fresh(sessions[fd])
    {
      hide Pool.Valid, Pool.Pending;
      if t.TaskAccept? {
        var session := new Session(fd);
        if fd !in sessions {
          sessions := sessions[fd := session];
        }
        notify := notify + [(fd, NoteReply(220))];
      } else if fd in sessions {
        RollExisting(sessions[fd], t);
      }
    }

    /** The connection `fd` as a session task with the effect `r` leaves it; no other is touched. */
    twostate predicate SessionDone(fd: nat, r: SEffect)
      requires old(Shape())
      reads *
    {
      && Shape()
      && Slice(fd) == old(Slice(fd)).(session := r.session, notes := old(Slice(fd)).notes + r.notes,
        dtasks := old(Slice(fd)).dtasks + r.dtasks)
      && diskPool.taken == old(diskPool.taken)
      && (fd in sessions ==> fresh(sessions[fd]) || (fd in old(sessions) && sessions[fd] == old(sessions)[fd]))
      && Untouched(fd)
    }

    /** roll_state_machine, for the whole server */
    method RunSessionTask(fd: nat, t: STask)
      requires Shape() && !crashed
      modifies this`notify, this`sessions, this`crashed, diskPool, if fd in sessions then {sessions[fd]} else {}
      ensures crashed <==> Fatal(old(Slice(fd)).session, t)
      ensures crashed ==> Shape() && Untouched(fd) && sessions == old(sessions) && diskPool.taken == old(diskPool.taken)
      ensures !crashed ==> SessionDone(fd, RollSession(cfg, old(Slice(fd)).session, t))
    {
      hide RollSession, FileIndex.Chain, FileIndex.EntriesOf, Pool.Valid, Pool.Pending, DiskInfo.Valid,
        DiskInfo.State, Session.State, TcpClient.State, For, Tag, Crashes;
      ghost var before := notify;
      RollSessionTask(fd, t);
      if !crashed {
        TagAppend(before, fd, RollSession(cfg, old(Slice(fd)).session, t).notes);
      }
      assert Untouched(fd) by { forall g: nat | g != fd ensures Kept(g) { } }
    }

    /** One turn of session worker i. */
    method SessionTurn(i: nat) returns (fd: nat)
      requires Shape() && i < |sessionPool.queues| && sessionPool.queues[i] != [] && !crashed
      modifies this`notify, this`sessions, this`crashed, sessionPool, diskPool, sessions.Values
      ensures fd == old(sessionPool.queues[i][0].0)
      ensures crashed <==> Fatal(old(SessionOf(fd)), old(sessionPool.queues[i][0].1))
      ensures crashed ==> Broke(fd)
      ensures !crashed ==> Enabled(old(Slice(fd)), SessionStep) && Stepped(fd, SessionStep)
    {
      hide RollSession, FileIndex.Chain, FileIndex.EntriesOf, Pool.Valid, Pool.Pending, DiskInfo.Valid,
        DiskInfo.State, Session.State, TcpClient.State, For, Crashes;
      var t;
      fd, t := sessionPool.Take(i);
      forall g: nat | g != fd ensures For(sessionPool.taken, g) == For(old(sessionPool.taken), g) {
        ForSnoc(old(sessionPool.taken), fd, t, g);
      }
      label taken:
      RunSessionTask(fd, t);
      assert Untouched(fd) by { forall g: nat | g != fd ensures Kept(g) { assert Kept@taken(g); } }
    }

    // -------------------------------------------------------------- the disk worker

    /** g_disk_man -> seek_disk( fd ) */
    ghost function DiskOf(fd: nat): Option<DiskState>
      reads *
    {
      if fd in disks then Some(disks[fd].State()) else None
    }

    /** What handling one disk task of `fd` does to the map, to the disk_info and to the messages. */
    twostate predicate Rolled(fd: nat, r: DEffect)
      requires old(sessionPool.Valid())
      reads *
    {
      && DiskOf(fd) == r.disk
      && (fd in disks ==> disks[fd].fd == fd && disks[fd].Valid())
      && (forall g: nat :: g != fd ==> (g in disks <==> g in old(disks)) && (g in disks ==> disks[g] == old(disks)[g]))
      && (fd in disks ==> fresh(disks[fd]) || (fd in old(disks) && disks[fd] == old(disks)[fd]))
      && sessionPool.Valid() && sessionPool.taken == old(sessionPool.taken)
      && notify == old(notify) + Tag(fd, r.notes)
      && sessionPool.Pending(fd) == old(sessionPool.Pending(fd)) + r.stasks
      && forall g: nat :: g != fd ==> sessionPool.Pending(g) == old(sessionPool.Pending(g))
    }

    /** DATA_TASK_INDEX_START, DATA_TASK_STOR_START, DATA_TASK_RETR_START */
    method StartDisk(fd: nat, t: DTask, o: Oracle)
      requires sessionPool.Valid() && (fd in disks ==> disks[fd].fd == fd && disks[fd].Valid())
      requires t.DiskIndexStart? || t.DiskRetrStart? || t.DiskStorStart?
      modifies this`notify, this`disks, sessionPool
      ensures Rolled(fd, RollDisk(old(DiskOf(fd)), t, o))
    {
      hide Pool.Valid, Pool.Pending, ListPage, ReadChunk, FileIndex.Chain;
      var disk := new DiskInfo(fd);
      match t {
        case DiskIndexStart =>
          var page := disk.OpenDirectory(o.dir);
          notify := notify + [(fd, NoteData(page))];
        case DiskRetrStart(offset) =>
          disk.Open(ReadOnly, o.file, ToInt32(offset));
          var chunk := disk.ReadFromDisk(o.count);
          notify := notify + [(fd, NoteData(chunk))];
        case DiskStorStart(offset) =>
          disk.Open(WriteOnly, o.file, ToInt32(offset));
          sessionPool.Post(fd, TaskStorStart);
      }
      if fd !in disks {
        disks := disks[fd := disk];
      }
      ghost var r := RollDisk(old(DiskOf(fd)), t, o);
      assert DiskOf(fd) == r.disk;
      assert notify == old(notify) + Tag(fd, r.notes);
      assert disks == old(disks)[fd := disks[fd]];
    }

    /** The transfer is over: SESSION_TASK_TRANS_OK is posted and the disk_info deleted. */
    method EndDisk(fd: nat)
      requires sessionPool.Valid()
      modifies this`disks, sessionPool
      ensures Rolled(fd, DEffect(None, [], [TaskTransOk]))
    {
      hide Pool.Valid, Pool.Pending;
      sessionPool.Post(fd, TaskTransOk);
      disks := disks - {fd};
    }

    /** DATA_TASK_WRITE_DONE */
    method RunWriteDone(fd: nat, o: Oracle)
      requires sessionPool.Valid() && fd in disks && disks[fd].fd == fd && disks[fd].Valid()
      modifies this`notify, this`disks, sessionPool, disks[fd]
      ensures Rolled(fd, NextChunk(old(disks[fd].State()), o.count))
    {
      hide Pool.Valid, Pool.Pending, ListPage, ReadChunk, FileIndex.Chain;
      var disk := disks[fd];
      match disk.dataAction {
        case IndexLoading =>
          if disk.handle == NoHandle {
            var page := disk.GetList();
            notify := notify + [(fd, NoteData(page))];
          }
        case RetrLoading =>
          if disk.handle == ReadOnly {
            var chunk := disk.ReadFromDisk(o.count);
            notify := notify + [(fd, NoteData(chunk))];
          }
        case IndexFinish =>
          EndDisk(fd);
        case RetrFinish =>
          EndDisk(fd);
        case _ =>
      }
      ghost var r := NextChunk(old(disks[fd].State()), o.count);
      assert DiskOf(fd) == r.disk;
      assert notify == old(notify) + Tag(fd, r.notes);
    }

    /** roll_state_machine of the disk worker */
    method RollDiskTask(fd: nat, t: DTask, o: Oracle)
      requires sessionPool.Valid() && (fd in disks ==> disks[fd].fd == fd && disks[fd].Valid())
      modifies this`notify, this`disks, sessionPool, if fd in disks then {disks[fd]} else {}
      ensures Rolled(fd, RollDisk(old(DiskOf(fd)), t, o))
    {
      hide Pool.Valid, Pool.Pending, ListPage, ReadChunk, WriteChunk, FileIndex.Chain;
      if t.DiskIndexStart? || t.DiskRetrStart? || t.DiskStorStart? {
        StartDisk(fd, t, o);
      } else if fd in disks {
        match t {
          case DiskWriteDone =>
            RunWriteDone(fd, o);
          case DiskStoring(chunk) =>
            var n := disks[fd].WriteToDisk(chunk);
          case DiskStorOk(chunk) =>
            var n := disks[fd].WriteToDisk(chunk);
            disks[fd].CloseFileHandle();
            if n > 0 {
              EndDisk(fd);
            }
        }
      }
    }

    /** The connection `fd` as a disk task with the effect `r` leaves it; no other is touched. */
    twostate predicate DiskDone(fd: nat, r: DEffect)
      requires old(Shape())
      reads *
    {
      && Shape()
      && Slice(fd) == old(Slice(fd)).(disk := r.disk, notes := old(Slice(fd)).notes + r.notes,
        stasks := old(Slice(fd)).stasks + r.stasks)
      && sessionPool.taken == old(sessionPool.taken)
      && (fd in disks ==> fresh(disks[fd]) || (fd in old(disks) && disks[fd] == old(disks)[fd]))
      && Untouched(fd)
    }

    /** roll_state_machine of the disk worker, for the whole server */
    method RunDiskTask(fd: nat, t: DTask, o: Oracle)
      requires Shape()
      modifies this`notify, this`disks, sessionPool, if fd in disks then {disks[fd]} else {}
      ensures DiskDone(fd, RollDisk(old(Slice(fd)).disk, t, o))
    {
      hide RollDisk, FileIndex.Chain, FileIndex.EntriesOf, Pool.Valid, Pool.Pending, DiskInfo.Valid,
        DiskInfo.State, Session.State, TcpClient.State, For, Tag;
      ghost var before := notify;
      RollDiskTask(fd, t, o);
      TagAppend(before, fd, RollDisk(old(Slice(fd)).disk, t, o).notes);
      assert Untouched(fd) by { forall g: nat | g != fd ensures Kept(g) { } }
    }

    /** One turn of disk worker i. */
    method DiskTurn(i: nat, o: Oracle) returns (fd: nat)
      requires Shape() && i < |diskPool.queues| && diskPool.queues[i] != []
      modifies this`notify, this`disks, sessionPool, diskPool, disks.Values
      ensures fd == old(diskPool.queues[i][0].0) && Enabled(old(Slice(fd)), DiskStep(o)) && Stepped(fd, DiskStep(o))
    {
      hide RollDisk, FileIndex.Chain, FileIndex.EntriesOf, Pool.Valid, Pool.Pending, DiskInfo.Valid,
        DiskInfo.State, Session.State, TcpClient.State, For;
      var t;
      fd, t := diskPool.Take(i);
      label taken:
      RunDiskTask(fd, t, o);
      assert Untouched(fd) by { forall g: nat | g != fd ensures Kept(g) { assert Kept@taken(g); } }
    }

    // -------------------------------------------------------------- runs

    /** Whether there is something to do for the call: its event is armed, its queue is not empty. */
    predicate Ready(call: Call)
      reads this, sessionPool, diskPool, clients.Values
    {
      match call
      case OfConnection(fd, Accept) => fd !in clients
      case OfConnection(fd, Connect) => fd in clients && clients[fd].listening
      case OfConnection(fd, Receive(data)) => fd in clients && clients[fd].connected && 0 < |data| <= DATASIZE
      case OfConnection(fd, EndOfData) => fd in clients && clients[fd].connected
      case OfConnection(fd, Drain(_)) => fd in clients && clients[fd].connected && clients[fd].dataArmed
      case OfConnection(fd, Write(_)) => fd in clients && clients[fd].writeArmed
      case OfConnection(fd, e) => (e.Input? || e.HangUp?) && fd in clients
      case OfSocketpair(port) => notify != []
      case OfSessionWorker(i) => i < |sessionPool.queues| && sessionPool.queues[i] != []
      case OfDiskWorker(i, _) => i < |diskPool.queues| && diskPool.queues[i] != []
    }

    /** The connection and the event that the call is about: the oldest message of its queue. */
    ghost predicate Due(call: Call, fd: nat, e: Event)
      reads this, sessionPool, diskPool
    {
      match call
      case OfConnection(of, event) => fd == of && e == event
      case OfSocketpair(port) => notify != [] && fd == notify[0].0 && e == Notify(port)
      case OfSessionWorker(i) =>
        i < |sessionPool.queues| && sessionPool.queues[i] != [] && fd == sessionPool.queues[i][0].0 && e == SessionStep
      case OfDiskWorker(i, o) =>
        i < |diskPool.queues| && diskPool.queues[i] != [] && fd == diskPool.queues[i][0].0 && e == DiskStep(o)
    }

    /** The message that the call is about ends the process. */
    ghost predicate Ends(call: Call)
      requires Shape() && Ready(call)
      reads *
    {
      match call
      case OfSocketpair(_) => notify[0].0 !in clients
      case OfSessionWorker(i) =>
        var (fd, t) := sessionPool.queues[i][0];
        Fatal(SessionOf(fd), t)
      case _ => false
    }

    /** One call of the event loop, of a session worker or of a disk worker. */
    method Handle(call: Call) returns (ghost fd: nat, ghost e: Event)
      requires Shape() && Ready(call) && !crashed
      modifies this, sessionPool, diskPool, clients.Values, sessions.Values, disks.Values
      ensures old(Due(call, fd, e)) && (crashed <==> old(Ends(call)))
      ensures crashed ==> Broke(fd)
      ensures !crashed ==> Enabled(old(Slice(fd)), e) && Stepped(fd, e)
    {
      hide RollSession, RollDisk, HandleNote, HandleData, HandleDrain, HandleWrite, FileIndex.Chain,
        FileIndex.EntriesOf, Pool.Valid, Pool.Pending, DiskInfo.Valid, DiskInfo.State, Session.State, Stepped, Broke,
        Fatal;
      match call {
        case OfSocketpair(port) =>
          e := Notify(port);
          fd := OnNotify(port);
        case OfSessionWorker(i) =>
          e := SessionStep;
          fd := SessionTurn(i);
        case OfDiskWorker(i, o) =>
          e := DiskStep(o);
          fd := DiskTurn(i, o);
        case OfConnection(of, event) =>
          fd, e := of, event;
          match event {
            case Accept => OnAccept(of);
            case Input(line) => OnRead(of, line);
            case HangUp => OnHangUp(of);
            case Connect => DataAccept(of);
            case Receive(data) => DataRead(of, data);
            case EndOfData => DataEnd(of);
            case Drain(count) => DataWrite(of, count);
            case Write(whole) => OnWrite(of, whole);
          }
      }
    }

    /** Handle: the other connections stay as they are, and only new objects are added. */
    method HandleFresh(call: Call) returns (ghost fd: nat, ghost e: Event)
      requires Shape() && Ready(call) && !crashed
      modifies this, sessionPool, diskPool, clients.Values, sessions.Values, disks.Values
      ensures old(Due(call, fd, e)) && (crashed <==> old(Ends(call)))
      ensures crashed ==> Broke(fd)
      ensures !crashed ==> Enabled(old(Slice(fd)), e) && Stepped(fd, e)
      ensures Shape() && forall g: nat :: g != fd ==> Slice(g) == old(Slice(g))
      ensures fresh(Footprint() - old(Footprint()))
    {
      hide Ready, Due, Ends, Step, Fatal, Breaking, FileIndex.Chain, FileIndex.EntriesOf, Pool.Valid, Pool.Pending,
        DiskInfo.Valid, DiskInfo.State, Session.State, TcpClient.State, For;
      fd, e := Handle(call);
      forall g: nat | g != fd
        ensures g in clients ==> clients[g] in old(clients).Values
        ensures g in sessions ==> sessions[g] in old(sessions).Values
        ensures g in disks ==> disks[g] in old(disks).Values
        ensures Slice(g) == old(Slice(g))
      {
        assert Kept(g);
      }
    }

    /** HandleFresh, and the tasks taken by the workers. */
    method HandleTaken(call: Call) returns (ghost fd: nat, ghost e: Event)
      requires Shape() && Ready(call) && !crashed
      modifies this, sessionPool, diskPool, clients.Values, sessions.Values, disks.Values
      ensures old(Due(call, fd, e)) && (crashed <==> old(Ends(call)))
      ensures Shape() && (!crashed ==> Enabled(old(Slice(fd)), e) && Slice(fd) == Step(cfg, old(Slice(fd)), e))
      ensures forall g: nat :: g != fd ==> Slice(g) == old(Slice(g))
      ensures forall g: nat :: g != fd ==> SessionTasks(g) == old(SessionTasks(g)) && DiskTasks(g) == old(DiskTasks(g))
      ensures !crashed ==> SessionTasks(fd) == old(SessionTasks(fd)) + SessionTaken(old(Slice(fd)), e)
      ensures !crashed ==> DiskTasks(fd) == old(DiskTasks(fd)) + DiskTaken(old(Slice(fd)), e)
      ensures fresh(Footprint() - old(Footprint()))
    {
      hide Ready, Due, Ends, Step, Breaking, Slice, Shape, Untouched, Footprint, For;
      fd, e := HandleFresh(call);
      if !crashed {
        TakenOne(old(sessionPool.taken), fd, SessionTaken(old(Slice(fd)), e));
        TakenOne(old(diskPool.taken), fd, DiskTaken(old(Slice(fd)), e));
      }
    }

    /** The part of connection `fd` agrees with the run that the events so far make for it. */
    ghost predicate Follows(trace: seq<(nat, Event)>, fd: nat)
      requires Shape()
      reads *
    {
      Agrees(cfg, trace, fd, Slice(fd), SessionTasks(fd), DiskTasks(fd))
    }

    /** The tasks of one descriptor that the session workers, and the disk workers, have taken. */
    ghost function SessionTasks(fd: nat): seq<STask>
      reads this, sessionPool
    {
      For(sessionPool.taken, fd)
    }

    ghost function DiskTasks(fd: nat): seq<DTask>
      reads this, diskPool
    {
      For(diskPool.taken, fd)
    }

    /** HandleTaken: every connection is taken on from a run to a run, its own by one event, or the process ends. */
    method HandleNext(call: Call, ghost trace: seq<(nat, Event)>) returns (ghost fd: nat, ghost e: Event)
      requires Shape() && Ready(call) && !crashed && forall g: nat :: Follows(trace, g)
      modifies this, sessionPool, diskPool, clients.Values, sessions.Values, disks.Values
      ensures old(Due(call, fd, e)) && (crashed <==> old(Ends(call)))
      ensures Shape() && forall g: nat :: g != fd ==> Follows(trace, g)
      ensures !crashed ==> Enabled(old(Slice(fd)), e) && forall g: nat :: Follows(trace + [(fd, e)], g)
      ensures fresh(Footprint() - old(Footprint()))
    {
      hide RollSession, RollDisk, HandleNote, HandleData, HandleDrain, HandleWrite, Step, Ready, Due, Ends, Agrees,
        Shape, Slice, Untouched, Footprint, SessionTasks, DiskTasks;
      fd, e := HandleTaken(call);
      forall g: nat | g != fd ensures Follows(trace, g) {
        assert old(Follows(trace, g));
      }
      if !crashed {
        ghost var c, sdone, ddone := old(Slice(fd)), old(SessionTasks(fd)), old(DiskTasks(fd));
        assert old(Follows(trace, fd));
        AgreesOn(cfg, trace, fd, c, sdone, ddone, e);
        forall g: nat ensures Follows(trace + [(fd, e)], g) {
          if g != fd {
            assert Follows(trace, g);
            AgreesElsewhere(cfg, trace, g, Slice(g), SessionTasks(g), DiskTasks(g), fd, e);
          }
        }
      }
    }
  }

  /** `c` is where the run of `fd` ends, and what its tasks make of its session and disk_info one after the other. */
  ghost predicate Agrees(cfg: Config, trace: seq<(nat, Event)>, fd: nat, c: Core, sdone: seq<STask>,
                         ddone: seq<DTask>)
  {
    var es := For(trace, fd);
    && Run(cfg, es)
    && c == After(cfg, es).core
    && c.session == FoldSession(cfg, sdone)
    && |ddone| == |Oracles(es)|
    && c.disk == FoldDisk(ddone, Oracles(es))
  }

  /** One more event of another connection changes nothing in that. */
  lemma AgreesElsewhere(cfg: Config, trace: seq<(nat, Event)>, fd: nat, c: Core, sdone: seq<STask>, ddone: seq<DTask>,
                        to: nat, e: Event)
    requires Agrees(cfg, trace, fd, c, sdone, ddone) && to != fd
    ensures Agrees(cfg, trace + [(to, e)], fd, c, sdone, ddone)
  {
    hide Run, After, FoldSession, FoldDisk, Oracles, For;
    ForSnoc(trace, to, e, fd);
    assert For(trace, fd) + [] == For(trace, fd);
  }

  /** One more event of the connection takes its run a step further. */
  lemma AgreesOn(cfg: Config, trace: seq<(nat, Event)>, fd: nat, c: Core, sdone: seq<STask>, ddone: seq<DTask>,
                 e: Event)
    requires Agrees(cfg, trace, fd, c, sdone, ddone) && Enabled(c, e)
    ensures Agrees(cfg, trace + [(fd, e)], fd, Step(cfg, c, e),
                   sdone + SessionTaken(c, e), ddone + DiskTaken(c, e))
  {
    hide Run, After, FoldSession, FoldDisk, Oracles, For, RollSession, RollDisk, HandleNote, HandleData,
      HandleDrain, HandleWrite, Fatal;
    var es := For(trace, fd);
    ForSnoc(trace, fd, e, fd);
    RunSnoc(cfg, es, e);
    OraclesSnoc(es, e);
    assert sdone + [] == sdone && ddone + [] == ddone && Oracles(es) + [] == Oracles(es);
    if e.SessionStep? {
      FoldSessionSnoc(cfg, sdone, c.stasks[0]);
    } else if e.DiskStep? {
      FoldDiskSnoc(ddone, Oracles(es), c.dtasks[0], e.oracle);
    }
  }

  // -------------------------------------------------------------- what a schedule comes to

  /** What a call of the schedule came to: the event of a connection, or nothing. */
  type Turn = Option<(nat, Event)>

  function TurnTrace(turn: Turn): seq<(nat, Event)> {
    if turn.Some? then [turn.value] else []
  }

  /** The events of all connections, in the order in which the calls made them happen. */
  function Trace(turns: seq<Turn>): seq<(nat, Event)> {
    if turns == [] then [] else Trace(turns[..|turns| - 1]) + TurnTrace(turns[|turns| - 1])
  }

  /** Each connection has gone through a run. */
  ghost predicate Runs(cfg: Config, trace: seq<(nat, Event)>) {
    forall fd: nat :: Run(cfg, For(trace, fd))
  }

  ghost function CoreAt(cfg: Config, trace: seq<(nat, Event)>, fd: nat): Core
    requires Runs(cfg, trace)
  {
    After(cfg, For(trace, fd)).core
  }

  predicate OfEventLoop(e: Event) {
    !e.Notify? && !e.SessionStep? && !e.DiskStep?
  }

  /**
   What becomes of a call after the events of `trace`: an event of its own connection, or the next message of
   a queue, whenever there is one to be had; `shards` of the workers are used.
   */
  ghost predicate Answers(cfg: Config, shards: nat, trace: seq<(nat, Event)>, call: Call, turn: Turn)
    requires Runs(cfg, trace) && shards > 0
  {
    && (turn.Some? ==> Enabled(CoreAt(cfg, trace, turn.value.0), turn.value.1))
    && match call
       case OfConnection(fd, e) =>
         if OfEventLoop(e) && Enabled(CoreAt(cfg, trace, fd), e) then turn == Some((fd, e)) else turn == None
       case OfSocketpair(port) =>
         if turn.Some? then turn.value.1 == Notify(port)
         else forall fd: nat :: CoreAt(cfg, trace, fd).notes == []
       case OfSessionWorker(i) =>
         if turn.Some? then turn.value.0 % shards == i && turn.value.1 == SessionStep
         else forall fd: nat :: fd % shards == i ==> CoreAt(cfg, trace, fd).stasks == []
       case OfDiskWorker(i, o) =>
         if turn.Some? then turn.value.0 % shards == i && turn.value.1 == DiskStep(o)
         else forall fd: nat :: fd % shards == i ==> CoreAt(cfg, trace, fd).dtasks == []
  }

  /** The call ends the process: the next message of its queue, which is one of `fd`, follows a null pointer. */
  ghost predicate Stops(cfg: Config, shards: nat, trace: seq<(nat, Event)>, call: Call, fd: nat)
    requires Run(cfg, For(trace, fd)) && shards > 0
  {
    var c := After(cfg, For(trace, fd)).core;
    match call
    case OfSocketpair(_) => c.notes != [] && c.client.None?
    case OfSessionWorker(i) => fd % shards == i && c.stasks != [] && Fatal(c.session, c.stasks[0])
    case _ => false
  }

  /** The tasks handled for `fd`, then those that wait, are those posted for it, in both pools. */
  ghost predicate InOrder(server: Server, fd: nat)
    requires server.Shape()
    reads *
  {
    && For(server.sessionPool.taken, fd) + server.sessionPool.Pending(fd) == For(server.sessionPool.posted, fd)
    && For(server.diskPool.taken, fd) + server.diskPool.Pending(fd) == For(server.diskPool.posted, fd)
  }

  lemma OrderKept(server: Server, fd: nat)
    requires server.Shape()
    ensures InOrder(server, fd)
  {
  }

  /** Every connection agrees with the events so far. */
  ghost predicate AllFollow(server: Server, trace: seq<(nat, Event)>)
    requires server.Shape()
    reads *
  {
    forall fd: nat :: server.Follows(trace, fd)
  }

  lemma Unstarted(server: Server)
    requires server.Shape() && forall fd: nat :: server.Slice(fd) == NEW_CORE
    requires server.sessionPool.taken == [] && server.diskPool.taken == []
    ensures AllFollow(server, [])
  {
  }

  /** A message of `fd` has ended the process; every other connection agrees with the events so far. */
  ghost predicate Stopped(server: Server, trace: seq<(nat, Event)>, call: Call, fd: nat)
    requires server.Shape()
    reads *
  {
    && (forall g: nat :: g != fd ==> server.Follows(trace, g))
    && Run(server.cfg, For(trace, fd)) && Stops(server.cfg, server.sessionPool.shards, trace, call, fd)
  }

  /** Every call up to `k` came to what it should. */
  ghost predicate Explained(cfg: Config, shards: nat, schedule: seq<Call>, turns: seq<Turn>, k: nat)
    requires shards > 0 && k < |turns| && k < |schedule|
  {
    Runs(cfg, Trace(turns[..k])) && Answers(cfg, shards, Trace(turns[..k]), schedule[k], turns[k])
  }

  lemma NoTurns()
    ensures Trace([]) == []
  {
  }

  lemma OneTurn(cfg: Config, shards: nat, schedule: seq<Call>, turns: seq<Turn>, turn: Turn)
    requires shards > 0 && |turns| < |schedule|
    requires forall j :: 0 <= j < |turns| ==> Explained(cfg, shards, schedule, turns, j)
    requires Runs(cfg, Trace(turns)) && Answers(cfg, shards, Trace(turns), schedule[|turns|], turn)
    ensures Trace(turns + [turn]) == Trace(turns) + TurnTrace(turn)
    ensures forall j :: 0 <= j <= |turns| ==> Explained(cfg, shards, schedule, turns + [turn], j)
  {
    hide Runs, Answers;
    var all := turns + [turn];
    assert all[..|turns|] == turns;
    forall j | 0 <= j <= |turns| ensures Explained(cfg, shards, schedule, all, j) {
      if j < |turns| {
        assert all[..j] == turns[..j] && all[j] == turns[j];
        assert Explained(cfg, shards, schedule, turns, j);
      }
    }
  }

  lemma FollowingRuns(server: Server, trace: seq<(nat, Event)>)
    requires server.Shape() && AllFollow(server, trace)
    ensures Runs(server.cfg, trace) && forall fd: nat :: server.Slice(fd) == CoreAt(server.cfg, trace, fd)
  {
    forall fd: nat ensures Run(server.cfg, For(trace, fd)) {
      assert server.Follows(trace, fd);
    }
    forall fd: nat ensures server.Slice(fd) == CoreAt(server.cfg, trace, fd) {
      assert server.Follows(trace, fd);
    }
  }

  /** A call for which there is nothing to do: no such event is armed, or no message of its queue is waiting. */
  lemma NothingToDo(server: Server, trace: seq<(nat, Event)>, call: Call)
    requires server.Shape() && AllFollow(server, trace) && !server.Ready(call)
    ensures Runs(server.cfg, trace) && Answers(server.cfg, server.sessionPool.shards, trace, call, None)
  {
    FollowingRuns(server, trace);
    match call {
      case OfConnection(fd, e) => assert server.Slice(fd) == CoreAt(server.cfg, trace, fd);
      case OfSocketpair(_) =>
        forall fd: nat ensures CoreAt(server.cfg, trace, fd).notes == [] {
          assert server.Slice(fd).notes == For(server.notify, fd) == [];
        }
      case OfSessionWorker(i) =>
        forall fd: nat | fd % server.sessionPool.shards == i ensures CoreAt(server.cfg, trace, fd).stasks == [] {
          assert server.Slice(fd).stasks == For(server.sessionPool.queues[i], fd) == [];
        }
      case OfDiskWorker(i, o) =>
        forall fd: nat | fd % server.sessionPool.shards == i ensures CoreAt(server.cfg, trace, fd).dtasks == [] {
          assert server.Slice(fd).dtasks == For(server.diskPool.queues[i], fd) == [];
        }
    }
  }

  /** What is due for a call answers it, or ends the process. */
  lemma SomethingDue(server: Server, trace: seq<(nat, Event)>, call: Call)
    requires server.Shape() && AllFollow(server, trace) && server.Ready(call)
    ensures Runs(server.cfg, trace)
    ensures forall fd: nat, e: Event :: server.Due(call, fd, e) ==>
      && (Enabled(server.Slice(fd), e) ==> Answers(server.cfg, server.sessionPool.shards, trace, call, Some((fd, e))))
      && (server.Ends(call) ==> Stops(server.cfg, server.sessionPool.shards, trace, call, fd))
  {
    hide Step, RollSession, RollDisk, Agrees;
    FollowingRuns(server, trace);
    forall fd: nat, e: Event | server.Due(call, fd, e)
      ensures Enabled(server.Slice(fd), e) ==>
        Answers(server.cfg, server.sessionPool.shards, trace, call, Some((fd, e)))
      ensures server.Ends(call) ==> Stops(server.cfg, server.sessionPool.shards, trace, call, fd)
    {
      assert server.Slice(fd) == CoreAt(server.cfg, trace, fd);
    }
  }

  /** Handles the call if there is something to do for it. */
  method Turns(server: Server, call: Call, ghost trace: seq<(nat, Event)>) returns (ghost turn: Turn)
    requires server.Shape() && !server.crashed && AllFollow(server, trace)
    modifies server, server.sessionPool, server.diskPool, server.clients.Values, server.sessions.Values,
      server.disks.Values
    ensures server.Shape() && fresh(server.Footprint() - old(server.Footprint()))
    ensures !server.crashed ==>
      && AllFollow(server, trace + TurnTrace(turn))
      && Runs(server.cfg, trace) && Answers(server.cfg, server.sessionPool.shards, trace, call, turn)
    ensures server.crashed ==> exists fd: nat :: Stopped(server, trace, call, fd)
  {
    hide Answers, Stops, Run, Server.Ready, Server.Due, Server.Ends, Server.Slice, Server.Shape, Server.Follows;
    turn := None;
    if !server.Ready(call) {
      NothingToDo(server, trace, call);
      assert trace + [] == trace;
    } else {
      SomethingDue(server, trace, call);
      ghost var fd, e := server.HandleNext(call, trace);
      if !server.crashed {
        turn := Some((fd, e));
      } else {
        assert Stopped(server, trace, call, fd);
      }
    }
  }

  /** What is true of the server once the first `k` calls of the schedule have come to `turns`. */
  ghost predicate Progress(server: Server, schedule: seq<Call>, turns: seq<Turn>, k: nat)
    requires server.Shape()
    reads *
  {
    && k <= |schedule| && |turns| == (if server.crashed then k - 1 else k) && 0 <= |turns|
    && (forall j :: 0 <= j < |turns| ==> Explained(server.cfg, server.sessionPool.shards, schedule, turns, j))
    && (if server.crashed then exists fd: nat :: Stopped(server, Trace(turns), schedule[|turns|], fd)
        else AllFollow(server, Trace(turns)))
  }

  /** One call of the schedule further. */
  method ServeOne(server: Server, schedule: seq<Call>, k: nat, ghost turns: seq<Turn>) returns (ghost turns': seq<Turn>)
    requires server.Shape() && !server.crashed && k < |schedule| && Progress(server, schedule, turns, k)
    modifies server, server.sessionPool, server.diskPool, server.clients.Values, server.sessions.Values,
      server.disks.Values
    ensures server.Shape() && Progress(server, schedule, turns', k + 1)
    ensures fresh(server.Footprint() - old(server.Footprint()))
  {
    hide Explained, Stopped, AllFollow, Trace, Runs, Answers, Server.Footprint;
    ghost var turn := Turns(server, schedule[k], Trace(turns));
    turns' := turns;
    if !server.crashed {
      OneTurn(server.cfg, server.sessionPool.shards, schedule, turns, turn);
      turns' := turns + [turn];
    }
  }

  /**
   The server under any schedule.  Each call comes to an event whenever there is one to be had, until one ends
   the process; each connection goes through a run of Protocol.Step of its own, in which its tasks are handled
   first in, first out, however many workers there are and whoever else is served.
   */
  method Serve(cfg: Config, sessionThreads: nat, diskThreads: nat, schedule: seq<Call>)
    returns (server: Server, ghost turns: seq<Turn>)
    requires 0 < sessionThreads <= diskThreads
    ensures server.Shape() && server.cfg == cfg && |turns| <= |schedule|
    ensures forall k :: 0 <= k < |turns| ==> Explained(cfg, sessionThreads, schedule, turns, k)
    ensures server.crashed <==> |turns| < |schedule|
    ensures !server.crashed ==> AllFollow(server, Trace(turns))
    ensures server.crashed ==> exists fd: nat :: Stopped(server, Trace(turns), schedule[|turns|], fd)
    ensures forall fd: nat :: InOrder(server, fd)
  {
    hide Step, Explained, Stopped, AllFollow, InOrder, Trace, Server.Shape, Server.Slice, Server.Follows, Progress;
    server := new Server(cfg, sessionThreads, diskThreads);
    turns := [];
    Unstarted(server);
    NoTurns();
    assert Progress(server, schedule, turns, 0) by { NoProgress(server, schedule); }
    var k := 0;
    while k < |schedule| && !server.crashed
      invariant k <= |schedule| && server.Shape() && server.cfg == cfg && server.sessionPool.shards == sessionThreads
      invariant fresh(server.Footprint())
      invariant Progress(server, schedule, turns, k)
      decreases |schedule| - k
    {
      turns := ServeOne(server, schedule, k, turns);
      k := k + 1;
    }
    Done(server, schedule, turns, k);
    forall fd: nat ensures InOrder(server, fd) {
      OrderKept(server, fd);
    }
  }

  lemma NoProgress(server: Server, schedule: seq<Call>)
    requires server.Shape() && !server.crashed && AllFollow(server, [])
    ensures Progress(server, schedule, [], 0)
  {
  }

  lemma Done(server: Server, schedule: seq<Call>, turns: seq<Turn>, k: nat)
    requires server.Shape() && Progress(server, schedule, turns, k) && (server.crashed || k == |schedule|)
    ensures |turns| <= |schedule| && (server.crashed <==> |turns| < |schedule|)
    ensures forall j :: 0 <= j < |turns| ==> Explained(server.cfg, server.sessionPool.shards, schedule, turns, j)
    ensures !server.crashed ==> AllFollow(server, Trace(turns))
    ensures server.crashed ==> exists fd: nat :: Stopped(server, Trace(turns), schedule[|turns|], fd)
  {
  }

  /** The login gate on the objects of the server itself. */
  lemma ServedLoginGate(server: Server, trace: seq<(nat, Event)>, fd: nat)
    requires server.Shape() && server.Follows(trace, fd)
    ensures fd in server.sessions && server.sessions[fd].dataAction != Waiting ==> server.sessions[fd].login
    ensures NotePasv in For(server.notify, fd) ==> fd in server.sessions && server.sessions[fd].login
  {
    LoginGate(server.cfg, For(trace, fd));
  }

  /** The session object of a descriptor is what the tasks handled for it say. */
  lemma ServedSession(server: Server, trace: seq<(nat, Event)>, fd: nat)
    requires server.Shape() && server.Follows(trace, fd)
    ensures var ts := Sessions.Handled(server.cfg, For(trace, fd));
      && (fd in server.sessions <==> ts != [])
      && (fd in server.sessions ==>
            && (server.sessions[fd].login <==> Sessions.LoggedInBy(ts))
            && server.sessions[fd].rights == Sessions.RightsOf(ts)
            && server.sessions[fd].name == Sessions.NameOf(ts)
            && server.sessions[fd].info == Sessions.EntryOf(ts)
            && server.sessions[fd].restSize == Sessions.OffsetOf(ts)
            && server.sessions[fd].dataAction == Sessions.ActionOf(server.cfg, ts))
  {
    hide Run, After, Sessions.LoggedInBy, Sessions.RightsOf, Sessions.NameOf, Sessions.EntryOf, Sessions.OffsetOf,
      Sessions.ActionOf, Sessions.Handled;
    Sessions.SessionKnown(server.cfg, For(trace, fd));
  }

  /** A download served by the server has sent what was asked for when its end is posted. */
  lemma ServedDownload(server: Server, trace: seq<(nat, Event)>, fd: nat) returns (p: nat, i: nat)
    requires server.Shape() && server.Follows(trace, fd) && PoliteRun(server.cfg, For(trace, fd))
    requires After(server.cfg, For(trace, fd)).hist.flow.mode == Download
    requires NoteTransOk in For(server.notify, fd) || TaskTransOk in server.sessionPool.Pending(fd)
    ensures var es := For(trace, fd);
      Run(server.cfg, es) && Sessions.LastAskedAt(server.cfg, es, p) && LastStartAt(server.cfg, es, i) && p < i
    ensures var es := For(trace, fd); var sent := After(server.cfg, es).hist.flow.sent;
      var ts := Sessions.Handled(server.cfg, es[..p]);
      match Sessions.ActionOf(server.cfg, ts)
      case Listing => sent == Concat(FileIndex.Lines(FileIndex.Listable(es[i].oracle.dir)))
      case Retrieving => sent == Tail(es[i].oracle.file, SeekPos(ToInt32(Sessions.OffsetOf(ts))))
      case _ => false
  {
    hide PoliteRun, After, LastStartAt, Sessions.AskedAt;
    p, i := Sessions.DownloadSendsAsked(server.cfg, For(trace, fd));
  }
}
