/** The objects behind a connection: TCP_client.h, session.h and disk_info.h. */
module Objects {
  import opened Types
  import opened Protocol
  import FileIndex

  /** TCP_client.h */
  class TcpClient {
    const fd: nat
    var writeQ: seq<nat>
    var writeArmed: bool
    var dataWriteQ: seq<OutBuf>
    var dataArmed: bool
    var listening: bool
    var connected: bool
    var fileBuffer: Bytes

    ghost function State(): ClientState
      reads this
    {
      ClientState(writeQ, writeArmed, dataWriteQ, dataArmed, listening, connected, fileBuffer)
    }

    constructor (fd: nat)
      ensures this.fd == fd && State() == NEW_CLIENT
    {
      this.fd := fd;
      writeQ, writeArmed, dataWriteQ, dataArmed, listening, connected, fileBuffer := [], false, [], false, false,
        false, [];
    }

    method CopyData(data: Bytes)
      requires |fileBuffer| + |data| <= FILEBUFSIZE
      modifies this`fileBuffer
      ensures fileBuffer == old(fileBuffer) + data
    {
      fileBuffer := fileBuffer + data;
    }

    method ClearData()
      modifies this`fileBuffer
      ensures fileBuffer == []
    {
      fileBuffer := [];
    }

    method ClearDataFd()
      modifies this
      ensures State() == CloseData(old(State()))
    {
      if listening {
        listening := false;
      }
      dataArmed := false;
      if connected {
        connected := false;
      }
    }

    /** The part of data_accept that concerns the client. */
    method Connect()
      modifies this`connected, this`dataArmed
      ensures State() == old(State()).(connected := true, dataArmed := false)
    {
      connected := true;
      dataArmed := false;
    }

    method QueueReply(code: nat)
      modifies this`writeQ, this`writeArmed
      ensures writeQ == old(writeQ) + [code] && writeArmed
    {
      writeQ, writeArmed := writeQ + [code], true;
    }

    /** The part of on_notify that concerns the client; returns what it posts to the session worker. */
    method TakeNote(n: Note, port: int) returns (posts: seq<STask>)
      modifies this
      ensures (State(), posts) == HandleNote(old(State()), n, port) && fileBuffer == old(fileBuffer)
    {
      posts := [];
      match n {
        case NoteReply(code) =>
          QueueReply(code);
        case NotePasv =>
          if port != -1 {
            listening := true;
            posts := [TaskPasv(port)];
          }
        case NoteTransOk =>
          QueueReply(226);
          ClearDataFd();
        case NoteData(chunk) =>
          dataWriteQ := dataWriteQ + [OutBuf(chunk, 0)];
          dataArmed := true;
      }
    }

    /** The part of data_read that concerns the client: returns what it posts to the disk worker. */
    method TakeData(data: Bytes) returns (posts: seq<DTask>)
      requires |fileBuffer| <= FILEBUFWRITESIZE && |data| <= DATASIZE
      modifies this
      ensures (State(), posts) == HandleData(old(State()), data) && |fileBuffer| <= FILEBUFWRITESIZE
    {
      CopyData(data);
      posts := [];
      if |fileBuffer| > FILEBUFWRITESIZE {
        posts := [DiskStoring(fileBuffer)];
        ClearData();
      }
    }

    /** data_read of zero bytes: the rest of the buffer is flushed and the data connection closed. */
    method EndData() returns (posts: seq<DTask>)
      modifies this
      ensures State() == CloseData(old(State()).(buf := [])) && posts == [DiskStorOk(old(fileBuffer))]
    {
      posts := [DiskStorOk(fileBuffer)];
      ClearData();
      ClearDataFd();
    }

    /** The part of data_write that concerns the client; returns what it posts to the disk worker. */
    method SendData(count: nat) returns (posts: seq<DTask>)
      modifies this
      ensures (State(), posts) == HandleDrain(old(State()), count) && fileBuffer == old(fileBuffer)
    {
      dataArmed := false;
      posts := [];
      if dataWriteQ != [] {
        var b := dataWriteQ[0];
        if b.offset + count < |b.chunk| {
          dataWriteQ := [OutBuf(b.chunk, b.offset + count)] + dataWriteQ[1..];
          dataArmed := true;
        } else {
          dataWriteQ := dataWriteQ[1..];
          posts := [DiskWriteDone];
        }
      }
    }

    /** on_write */
    method SendReply(whole: bool)
      requires writeArmed
      modifies this
      ensures State() == HandleWrite(old(State()), whole) && fileBuffer == old(fileBuffer)
    {
      writeArmed := false;
      if writeQ != [] {
        if whole {
          writeQ := writeQ[1..];
        } else {
          writeArmed := true;
        }
      }
    }
  }

  /** session.h */
  class Session {
    const fd: nat
    var login: bool
    var rights: Rights
    var name: Name
    var info: Option<Rights>
    var dataAction: DataAction
    var restSize: int

    ghost function State(): SessionState
      reads this
    {
      SessionState(login, rights, name, info, dataAction, restSize)
    }

    constructor (fd: nat)
      ensures this.fd == fd && State() == NEW_SESSION
    {
      this.fd := fd;
      login, rights, name, info, dataAction, restSize := false, Rights(false, false), Unnamed, None, Waiting, 0;
    }
  }

  /** file_handle: -1, open for one purpose, or closed and not reset. */
  datatype Handle = NoHandle | ReadOnly | WriteOnly | ClosedHandle

  /** disk_info.h */
  class DiskInfo {
    const fd: nat
    var dataAction: DiskAction
    var handle: Handle
    var file: Bytes
    var pos: nat
    var curDir: FileIndex.DirNode?
    ghost var nodes: seq<FileIndex.DirNode>

    ghost predicate Valid()
      reads this, nodes
    {
      FileIndex.Chain(curDir, nodes)
    }

    ghost function State(): DiskState
      reads this
    {
      DiskState(dataAction,
                match handle
                case NoHandle => Entries(FileIndex.EntriesOf(nodes))
                case ReadOnly => Reading(file, pos)
                case WriteOnly => Writing(file, pos)
                case ClosedHandle => Closed)
    }

    constructor (fd: nat)
      ensures this.fd == fd && Valid() && handle == NoHandle && nodes == [] && dataAction == StorStart
    {
      this.fd := fd;
      dataAction, handle, file, pos, curDir, nodes := StorStart, NoHandle, [], 0, null, [];
    }

    /** get_list: the next page of the directory, and whether anything is left. */
    method GetList() returns (page: Bytes)
      requires Valid() && handle == NoHandle
      modifies this
      ensures Valid() && (State(), page) == ListPage(old(FileIndex.EntriesOf(nodes)))
    {
      var lines, rest := FileIndex.GetDir(curDir, nodes);
      ghost var p := FileIndex.TakePage(FileIndex.EntriesOf(nodes), PAGE_LINES);
      page := Concat(lines);
      curDir := rest;
      nodes := nodes[|nodes| - |p.rest|..];
      dataAction := if curDir != null then IndexLoading else IndexFinish;
    }

    method OpenDirectory(ents: seq<FileIndex.DirEnt>) returns (page: Bytes)
      requires Valid() && handle == NoHandle
      modifies this
      ensures Valid() && (State(), page) == ListPage(FileIndex.Listable(ents))
    {
      curDir, nodes := FileIndex.GetDirDetail(ents);
      page := GetList();
    }

    method Open(handle: Handle, file: Bytes, offset: int)
      requires Valid() && handle in {ReadOnly, WriteOnly}
      modifies this
      ensures Valid() && this.handle == handle && this.file == file && pos == SeekPos(offset)
        && dataAction == old(dataAction)
    {
      this.handle, this.file := handle, file;
      pos := if offset < 0 then 0 else offset;
    }

    /** read_from_disk, and the state run_retr_start and run_retr_loading choose from its result. */
    method ReadFromDisk(count: nat) returns (chunk: Bytes)
      requires Valid() && handle == ReadOnly
      modifies this
      ensures Valid() && (State(), chunk) == ReadChunk(file, old(pos), count) && file == old(file)
    {
      var n := ReadLen(file, pos, count);
      if n > 0 {
        chunk := file[pos..pos + n];
        dataAction := RetrLoading;
      } else {
        chunk := [];
        dataAction := RetrFinish;
      }
      pos := pos + n;
    }

    method CloseFileHandle()
      requires Valid()
      modifies this`handle
      ensures Valid() && State() == CloseHandle(old(State()))
    {
      if handle != NoHandle {
        handle := ClosedHandle;
      }
    }

    /** write_to_disk, and the state the upload tasks choose from its result. */
    method WriteToDisk(chunk: Bytes) returns (n: int)
      requires Valid()
      modifies this
      ensures Valid() && (State(), n) == WriteChunk(old(State()), chunk)
    {
      dataAction := StorBusy;
      if handle == WriteOnly {
        file := WriteAt(file, pos, chunk);
        pos := pos + |chunk|;
        n := |chunk|;
        if n > 0 {
          dataAction := StorDone;
        }
      } else {
        n := -1;
      }
    }
  }
}
