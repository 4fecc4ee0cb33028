/** What the event loop keeps for a client, and the disk worker for a transfer, read off the events of the run. */
module Connections {
  import opened Types
  import opened Protocol
  import opened History
  import opened Guarantees

  // ---------------------------------------------------------------- replies that stay behind

  /** Replies wait for the socket, but on_write is not going to be called. */
  predicate LeftBehind(c: Core) {
    c.client.Some? && c.client.value.writeQ != [] && !c.client.value.writeArmed
  }

  /** The event queues a reply, or is one of on_write, or begins a new client. */
  predicate Touches(c: Core, e: Event)
    requires Enabled(c, e)
  {
    e.Accept? || e.Write? || (e.Notify? && CodeOf(c.notes[0]) != [])
  }

  /** The first reply is written and others wait behind it. */
  predicate LeavesMore(c: Core, e: Event)
    requires Enabled(c, e)
  {
    e.Write? && e.whole && |c.client.value.writeQ| >= 2
  }

  lemma LeftBehindStep(cfg: Config, c: Core, e: Event)
    requires Enabled(c, e)
    ensures LeftBehind(Step(cfg, c, e)) <==>
      if Touches(c, e) then LeavesMore(c, e) else LeftBehind(c) && !e.HangUp?
  {
    hide RollSession, RollDisk;
  }

  ghost predicate TouchesAt(cfg: Config, es: seq<Event>, i: int) {
    && 0 <= i < |es| && Run(cfg, es[..i]) && Enabled(After(cfg, es[..i]).core, es[i])
    && Touches(After(cfg, es[..i]).core, es[i])
  }

  /** Event `i` is the last one of the run to touch the replies, and it leaves some behind. */
  ghost predicate LeftAt(cfg: Config, es: seq<Event>, i: int) {
    && TouchesAt(cfg, es, i) && LeavesMore(After(cfg, es[..i]).core, es[i])
    && forall j :: i < j < |es| ==> !TouchesAt(cfg, es, j)
  }

  lemma LeftLater(cfg: Config, es: seq<Event>, e: Event)
    ensures (exists i :: LeftAt(cfg, es + [e], i)) <==>
      if TouchesAt(cfg, es + [e], |es|) then LeftAt(cfg, es + [e], |es|) else exists i :: LeftAt(cfg, es, i)
  {
    hide Run, After, Enabled, Touches, LeavesMore;
    var all := es + [e];
    forall j: nat | j < |es| ensures all[..j] == es[..j] && (TouchesAt(cfg, all, j) <==> TouchesAt(cfg, es, j)) {
      assert all[..j] == es[..j];
    }
    if !TouchesAt(cfg, all, |es|) {
      assert forall i: nat :: i < |es| ==> (LeftAt(cfg, all, i) <==> LeftAt(cfg, es, i));
    }
  }

  /**
   In every run replies wait with no event to send them if and only if the last event to touch them was an on_write
   that found more than one.
   */
  lemma {:induction false} LeftBehindIff(cfg: Config, es: seq<Event>)
    requires Run(cfg, es)
    ensures var c := After(cfg, es).core;
      LeftBehind(c) <==> c.client.Some? && exists i :: LeftAt(cfg, es, i)
  {
    hide LeftBehind, LeavesMore, Touches, Enabled, Step, LeftAt;
    if es == [] {
      NothingLeft(cfg);
    } else {
      var before, e := es[..|es| - 1], es[|es| - 1];
      var c := After(cfg, before).core;
      LeftBehindIff(cfg, before);
      LeftBehindStep(cfg, c, e);
      ClientStep(cfg, c, e);
      assert es == before + [e] && es[..|before|] == before;
      LeftLater(cfg, before, e);
      LastLeft(cfg, es);
    }
  }

  lemma LastLeft(cfg: Config, es: seq<Event>)
    requires Run(cfg, es) && es != []
    ensures var before, e := es[..|es| - 1], es[|es| - 1]; var c := After(cfg, before).core;
      && Run(cfg, before) && Enabled(c, e)
      && (TouchesAt(cfg, es, |before|) <==> Touches(c, e))
      && (LeftAt(cfg, es, |before|) <==> Touches(c, e) && LeavesMore(c, e))
  {
    hide After, Enabled, Touches, LeavesMore;
  }

  lemma ClientStep(cfg: Config, c: Core, e: Event)
    requires Enabled(c, e)
    ensures Step(cfg, c, e).client.Some? <==> e.Accept? || (c.client.Some? && !e.HangUp?)
    ensures LeavesMore(c, e) ==> Touches(c, e) && Step(cfg, c, e).client.Some?
    ensures (LeftBehind(c) ==> c.client.Some?) && (e.Accept? ==> Touches(c, e))
  {
    hide RollSession, RollDisk, HandleNote, HandleData, HandleDrain, HandleWrite;
  }

  lemma NothingLeft(cfg: Config)
    ensures !LeftBehind(After(cfg, []).core) && !exists i :: LeftAt(cfg, [], i)
  {
  }

  // ---------------------------------------------------------------- the data connection

  /** Whether a client listens, whether its data socket is connected, and the bytes of an upload not handed on yet. */
  datatype Channel = Channel(listening: bool, connected: bool, kept: Bytes)

  function NextChannel(h: Channel, c: Core, e: Event): Channel
    requires Enabled(c, e)
  {
    match e
    case Accept => Channel(false, false, [])
    case Connect => h.(connected := true)
    case Receive(data) => h.(kept := if |h.kept + data| > FILEBUFWRITESIZE then [] else h.kept + data)
    case EndOfData => Channel(false, false, [])
    case Notify(port) =>
      if c.notes[0] == NoteTransOk then h.(listening := false, connected := false)
      else if c.notes[0] == NotePasv && port != -1 then h.(listening := true)
      else h
    case _ => h
  }

  /** What the events of a run make of it. */
  function ChannelOf(cfg: Config, es: seq<Event>): Channel
    requires Run(cfg, es)
  {
    if es == [] then Channel(false, false, [])
    else NextChannel(ChannelOf(cfg, es[..|es| - 1]), After(cfg, es[..|es| - 1]).core, es[|es| - 1])
  }

  function ChannelIn(cl: ClientState): Channel {
    Channel(cl.listening, cl.connected, cl.buf)
  }

  lemma ChannelStep(cfg: Config, c: Core, e: Event)
    requires Enabled(c, e) && Step(cfg, c, e).client.Some?
    ensures ChannelIn(Step(cfg, c, e).client.value) ==
      NextChannel(if c.client.Some? then ChannelIn(c.client.value) else Channel(false, false, []), c, e)
    ensures !e.Accept? ==> c.client.Some?
  {
    hide RollSession, RollDisk;
  }

  lemma {:induction false} ChannelKnown(cfg: Config, es: seq<Event>)
    requires Run(cfg, es) && After(cfg, es).core.client.Some?
    ensures ChannelIn(After(cfg, es).core.client.value) == ChannelOf(cfg, es)
  {
    hide Step, ChannelIn, Enabled;
    if es == [] {
      AtStart(cfg);
    } else {
      var before, e := es[..|es| - 1], es[|es| - 1];
      ChannelStep(cfg, After(cfg, before).core, e);
      if !e.Accept? {
        ChannelKnown(cfg, before);
      }
    }
  }

  /** Event `i` makes a client listen on `port`. */
  ghost predicate ListensAt(cfg: Config, es: seq<Event>, i: int, port: int) {
    && 0 <= i < |es| && es[i] == Notify(port) && port != -1 && Run(cfg, es[..i])
    && After(cfg, es[..i]).core.notes != [] && After(cfg, es[..i]).core.notes[0] == NotePasv
  }

  lemma PortStep(cfg: Config, c: Core, e: Event, port: int)
    requires Enabled(c, e) && TaskPasv(port) in Step(cfg, c, e).stasks && TaskPasv(port) !in c.stasks
    ensures e == Notify(port) && c.notes[0] == NotePasv && port != -1
  {
    hide RollSession, HandleData, HandleDrain, HandleWrite;
  }

  /** The session worker is told only of ports that a client was made to listen on, so a 227 names no other. */
  lemma {:induction false} PortsAreBound(cfg: Config, es: seq<Event>, port: int)
    requires Run(cfg, es) && TaskPasv(port) in After(cfg, es).core.stasks
    ensures exists i :: ListensAt(cfg, es, i, port)
  {
    hide Step, Enabled, RecordFlow, RecordPosted, RecordAccess, RecordFacts;
    assert es != [];
    var before, e := es[..|es| - 1], es[|es| - 1];
    var c := After(cfg, before).core;
    if TaskPasv(port) in c.stasks {
      PortsAreBound(cfg, before, port);
      var i :| ListensAt(cfg, before, i, port);
      assert before[..i] == es[..i];
      assert ListensAt(cfg, es, i, port);
    } else {
      PortStep(cfg, c, e, port);
      assert Enabled(c, e) ==> c.notes != [] by { NoteWaits(c, port); }
      assert ListensAt(cfg, es, |before|, port);
    }
  }

  lemma NoteWaits(c: Core, port: int)
    ensures Enabled(c, Notify(port)) ==> c.notes != []
  {
  }

  // ---------------------------------------------------------------- the disk worker

  /** A start task for a descriptor that has a disk_info leaves that in place, whatever it opens. */
  lemma OlderDiskStays(cfg: Config, c: Core, o: Oracle)
    requires Enabled(c, DiskStep(o)) && c.disk.Some? && Starts(c.dtasks[0])
    ensures var c' := Step(cfg, c, DiskStep(o));
      && c'.disk == c.disk
      && |c'.notes| == |c.notes| + (if c.dtasks[0].DiskStorStart? then 0 else 1)
      && c'.stasks == c.stasks + (if c.dtasks[0].DiskStorStart? then [TaskStorStart] else [])
  {
  }

  /** Without a disk_info only a start task has an effect. */
  lemma NoDiskNoEffect(cfg: Config, c: Core, o: Oracle)
    requires Enabled(c, DiskStep(o)) && c.disk.None? && !Starts(c.dtasks[0])
    ensures Step(cfg, c, DiskStep(o)) == c.(dtasks := c.dtasks[1..])
  {
  }
}
