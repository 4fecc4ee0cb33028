/**
 What a client gets that its descriptor owes to a former one.  The queues and the session outlive a client,
 so the next one of the descriptor is sent replies to what the former one has left in them.
 */
module Inheritance {
  import opened Types
  import opened Protocol
  import opened History
  import opened Replies

  // ---------------------------------------------------------------- before a client's own greeting

  /** The session after the tasks `ts`, handled one after the other. */
  function FoldFrom(cfg: Config, session: Option<SessionState>, ts: seq<STask>): Option<SessionState> {
    if ts == [] then session
    else
      var before := FoldFrom(cfg, session, ts[..|ts| - 1]);
      if Fatal(before, ts[|ts| - 1]) then before else RollSession(cfg, before, ts[|ts| - 1]).session
  }

  /** The replies to the tasks `ts`, handled one after the other. */
  function AnswersTo(cfg: Config, session: Option<SessionState>, ts: seq<STask>): seq<nat> {
    if ts == [] then []
    else
      var before := FoldFrom(cfg, session, ts[..|ts| - 1]);
      AnswersTo(cfg, session, ts[..|ts| - 1])
      + (if Fatal(before, ts[|ts| - 1]) then [] else Codes(RollSession(cfg, before, ts[|ts| - 1]).notes))
  }

  /** The replies that a client accepted in state `c` is to get before its own greeting. */
  function Inherited(cfg: Config, c: Core): seq<nat> {
    Codes(c.notes) + AnswersTo(cfg, c.session, c.stasks)
  }

  /** How many tasks the session worker has taken. */
  function Turns(es: seq<Event>): nat {
    if es == [] then 0 else Turns(es[..|es| - 1]) + (if es[|es| - 1].SessionStep? then 1 else 0)
  }

  /** The client of `c0` has been accepted, and since then no other; `n` session tasks have been taken. */
  ghost predicate Entered(cfg: Config, c0: Core, c: Conn, n: nat) {
    var held := c0.stasks;
    if n <= |held| then
      && held[n..] + [TaskAccept] <= c.core.stasks
      && c.core.session == FoldFrom(cfg, c0.session, held[..n])
      && c.hist.posted == Codes(c0.notes) + AnswersTo(cfg, c0.session, held[..n])
    else Inherited(cfg, c0) + [220] <= c.hist.posted
  }

  lemma EnteredNow(cfg: Config, c: Conn)
    requires Enabled(c.core, Accept)
    ensures Entered(cfg, c.core, StepConn(cfg, c, Accept), 0)
  {
    assert c.core.stasks[0..] == c.core.stasks && c.core.stasks[..0] == [];
    assert Codes(c.core.notes) + [] == Codes(c.core.notes);
  }

  lemma EnteredStep(cfg: Config, c0: Core, c: Conn, n: nat, e: Event)
    requires Entered(cfg, c0, c, n) && Enabled(c.core, e) && !e.Accept?
    ensures Entered(cfg, c0, StepConn(cfg, c, e), if e.SessionStep? then n + 1 else n)
  {
    hide RollSession, RollDisk, HandleNote, HandleData, HandleDrain, Codes, RecordFlow, RecordAccess, FactsOf, Fatal;
    var held := c0.stasks;
    if e.SessionStep? && n < |held| {
      assert held[n..] == [held[n]] + held[n + 1..];
      assert c.core.stasks[0] == held[n];
      assert held[..n + 1][..n] == held[..n];
      Assoc(Codes(c0.notes), AnswersTo(cfg, c0.session, held[..n]),
            Codes(RollSession(cfg, c.core.session, held[n]).notes));
    } else if e.SessionStep? && n == |held| {
      assert held[..n] == held && held[n..] == [];
      assert c.core.stasks[0] == TaskAccept;
      GreetingCode(cfg, c.core.session);
    }
  }

  lemma GreetingCode(cfg: Config, session: Option<SessionState>)
    ensures Codes(RollSession(cfg, session, TaskAccept).notes) == [220]
  {
    assert Codes([NoteReply(220)]) == [220] + Codes([]);
  }

  /**
   The replies posted for a client begin with those that were in the socketpair when it was accepted, and the
   answers to the tasks that were waiting then; its own greeting comes next.
   */
  lemma {:induction false} InheritedFirst(cfg: Config, before: seq<Event>, since: seq<Event>)
    requires Run(cfg, before + [Accept] + since) && forall i :: 0 <= i < |since| ==> !since[i].Accept?
    ensures Run(cfg, before)
    ensures Entered(cfg, After(cfg, before).core, After(cfg, before + [Accept] + since), Turns(since))
  {
    hide Entered, StepConn;
    var all := before + [Accept] + since;
    if since == [] {
      assert all == before + [Accept] && all[..|all| - 1] == before;
      EnteredNow(cfg, After(cfg, before));
    } else {
      var earlier := since[..|since| - 1];
      assert all[..|all| - 1] == before + [Accept] + earlier;
      InheritedFirst(cfg, before, earlier);
      EnteredStep(cfg, After(cfg, before).core, After(cfg, before + [Accept] + earlier), Turns(earlier),
                  since[|since| - 1]);
    }
  }

  // ---------------------------------------------------------------- whose messages they are

  /** For every message in the four queues, and every reply posted, whether it goes back to the present client. */
  datatype Marks = Marks(notes: seq<bool>, stasks: seq<bool>, dtasks: seq<bool>, queue: seq<bool>, posted: seq<bool>)

  function Same(own: bool, n: nat): (r: seq<bool>)
    ensures |r| == n && forall i :: 0 <= i < n ==> r[i] == own
  {
    seq(n, _ => own)
  }

  function First(bs: seq<bool>): bool {
    bs != [] && bs[0]
  }

  function Rest(bs: seq<bool>): seq<bool> {
    if bs == [] then [] else bs[1..]
  }

  /** What the client does is its own; what a message brings about is as much its own as the message. */
  function StepMarks(cfg: Config, c: Core, m: Marks, e: Event): Marks
    requires Enabled(c, e)
  {
    match e
    case Accept =>
      Marks(Same(false, |c.notes|), Same(false, |c.stasks|) + [true], Same(false, |c.dtasks|), [],
            Same(false, |Codes(c.notes)|))
    case HangUp => m.(stasks := m.stasks + [true], queue := [])
    case Notify(port) =>
      var own := First(m.notes);
      m.(notes := Rest(m.notes), stasks := m.stasks + Same(own, |HandleNote(c.client.value, c.notes[0], port).1|),
         queue := m.queue + if c.notes[0].NoteData? then [own] else [])
    case Receive(data) => m.(dtasks := m.dtasks + Same(true, |HandleData(c.client.value, data).1|))
    case EndOfData => m.(dtasks := m.dtasks + [true])
    case Drain(count) =>
      if HandleDrain(c.client.value, count).1 == [] then m
      else m.(queue := Rest(m.queue), dtasks := m.dtasks + [First(m.queue)])
    case Write(_) => m
    case SessionStep =>
      var r := RollSession(cfg, c.session, c.stasks[0]);
      var own := First(m.stasks);
      m.(stasks := Rest(m.stasks), notes := m.notes + Same(own, |r.notes|), dtasks := m.dtasks + Same(own, |r.dtasks|),
         posted := m.posted + Same(own, |Codes(r.notes)|))
    case DiskStep(o) =>
      var r := RollDisk(c.disk, c.dtasks[0], o);
      var own := First(m.dtasks);
      m.(dtasks := Rest(m.dtasks), notes := m.notes + Same(own, |r.notes|), stasks := m.stasks + Same(own, |r.stasks|))
    case _ => m.(stasks := m.stasks + [true])
  }

  function MarksAfter(cfg: Config, es: seq<Event>): Marks
    requires Run(cfg, es)
  {
    if es == [] then Marks([], [], [], [], [])
    else StepMarks(cfg, After(cfg, es[..|es| - 1]).core, MarksAfter(cfg, es[..|es| - 1]), es[|es| - 1])
  }

  /** There is a mark for every message and every reply. */
  ghost predicate Aligned(c: Conn, m: Marks) {
    && |m.notes| == |c.core.notes| && |m.stasks| == |c.core.stasks| && |m.dtasks| == |c.core.dtasks|
    && (c.core.client.Some? ==> |m.queue| == |c.core.client.value.dataQ|)
    && |m.posted| == |c.hist.posted|
  }

  lemma AlignedStep(cfg: Config, c: Conn, m: Marks, e: Event)
    requires Aligned(c, m) && Enabled(c.core, e)
    ensures Aligned(StepConn(cfg, c, e), StepMarks(cfg, c.core, m, e))
  {
    hide RollSession, RollDisk, Codes, RecordFlow, RecordAccess, FactsOf, Fatal;
  }

  lemma {:induction false} MarksAligned(cfg: Config, es: seq<Event>)
    requires Run(cfg, es)
    ensures Aligned(After(cfg, es), MarksAfter(cfg, es))
  {
    hide StepConn, StepMarks, Aligned;
    if es == [] {
      assert Aligned(NEW_CONN, MarksAfter(cfg, [])) by { NothingMarked(cfg); }
    } else {
      var before := es[..|es| - 1];
      MarksAligned(cfg, before);
      AlignedStep(cfg, After(cfg, before), MarksAfter(cfg, before), es[|es| - 1]);
    }
  }

  lemma NothingMarked(cfg: Config)
    ensures Aligned(NEW_CONN, MarksAfter(cfg, []))
  {
  }

  predicate AllOwn(bs: seq<bool>) {
    forall i :: 0 <= i < |bs| ==> bs[i]
  }

  /** Nothing in the queues goes back to a former client. */
  predicate Clean(m: Marks) {
    AllOwn(m.notes) && AllOwn(m.stasks) && AllOwn(m.dtasks) && AllOwn(m.queue)
  }

  /** From then on every reply is the client's own. */
  lemma CleanStep(cfg: Config, c: Conn, m: Marks, e: Event)
    requires Aligned(c, m) && Clean(m) && Enabled(c.core, e) && !e.Accept?
    ensures var m' := StepMarks(cfg, c.core, m, e);
      Clean(m') && m.posted <= m'.posted && AllOwn(m'.posted[|m.posted|..])
  {
    hide RollSession, RollDisk, Codes, HandleNote, HandleData, Fatal;
  }

  lemma {:induction false} StaysClean(cfg: Config, before: seq<Event>, since: seq<Event>)
    requires Run(cfg, before + since) && forall i :: 0 <= i < |since| ==> !since[i].Accept?
    requires Run(cfg, before) && Clean(MarksAfter(cfg, before))
    ensures var m := MarksAfter(cfg, before); var m' := MarksAfter(cfg, before + since);
      Clean(m') && m.posted <= m'.posted && AllOwn(m'.posted[|m.posted|..])
  {
    hide StepMarks, Clean;
    var all := before + since;
    if since == [] {
      assert all == before;
    } else {
      var earlier := since[..|since| - 1];
      assert all[..|all| - 1] == before + earlier;
      StaysClean(cfg, before, earlier);
      MarksAligned(cfg, before + earlier);
      CleanStep(cfg, After(cfg, before + earlier), MarksAfter(cfg, before + earlier), since[|since| - 1]);
    }
  }

  /** A client whose descriptor has nothing waiting when it is accepted gets its own replies only. */
  lemma OwnRepliesOnly(cfg: Config, before: seq<Event>, since: seq<Event>)
    requires Run(cfg, before + [Accept] + since) && forall i :: 0 <= i < |since| ==> !since[i].Accept?
    requires Run(cfg, before) && var c := After(cfg, before).core; c.notes == [] && c.stasks == [] && c.dtasks == []
    ensures var all := before + [Accept] + since;
      |MarksAfter(cfg, all).posted| == |After(cfg, all).hist.posted| && AllOwn(MarksAfter(cfg, all).posted)
  {
    hide Clean;
    RunPrefix(cfg, before + [Accept], since);
    AcceptedClean(cfg, before);
    StaysClean(cfg, before + [Accept], since);
    MarksAligned(cfg, before + [Accept] + since);
  }

  lemma {:induction false} RunPrefix(cfg: Config, es: seq<Event>, more: seq<Event>)
    requires Run(cfg, es + more)
    ensures Run(cfg, es)
  {
    if more == [] {
      assert es + more == es;
    } else {
      assert (es + more)[..|es + more| - 1] == es + more[..|more| - 1];
      RunPrefix(cfg, es, more[..|more| - 1]);
    }
  }

  lemma AcceptedClean(cfg: Config, before: seq<Event>)
    requires Run(cfg, before + [Accept]) && Run(cfg, before)
    requires var c := After(cfg, before).core; c.notes == [] && c.stasks == [] && c.dtasks == []
    ensures Clean(MarksAfter(cfg, before + [Accept])) && MarksAfter(cfg, before + [Accept]).posted == []
  {
    var all := before + [Accept];
    assert all[..|all| - 1] == before;
    assert Codes([]) == [];
  }

  // ---------------------------------------------------------------- replies to a former client

  predicate LateCode(code: nat) {
    code == 227 || code == 502 || code == 150 || code == 226
  }

  /** After the greeting, which is the reply number `early`, a former client is answered with such codes only. */
  predicate LateOnly(marks: seq<bool>, posted: seq<nat>, early: nat)
    requires |marks| == |posted|
  {
    forall k :: early < k < |marks| && !marks[k] ==> LateCode(posted[k])
  }

  /** What the workers still post for a former client once the new one has been greeted. */
  predicate Leftover(t: STask) {
    t.TaskPasv? || t.TaskStorStart? || t.TaskTransOk?
  }

  /** Only the tasks that waited, and what they still bring about, go back to a former client. */
  ghost predicate EnteredMarks(cfg: Config, c0: Core, c: Conn, m: Marks, n: nat)
    requires Aligned(c, m)
  {
    var held := |c0.stasks|;
    if n <= held then
      && |m.stasks| > held - n && m.stasks[held - n]
      && (forall k :: 0 <= k < held - n ==> !m.stasks[k])
      && (forall k :: held - n < k < |m.stasks| && !m.stasks[k] ==> Leftover(c.core.stasks[k]))
      && (forall k :: 0 <= k < |m.posted| ==> !m.posted[k])
    else
      var early := |Inherited(cfg, c0)|;
      && |m.posted| > early && m.posted[early] && (forall k :: 0 <= k < early ==> !m.posted[k])
      && (forall k :: 0 <= k < |m.stasks| && !m.stasks[k] ==> Leftover(c.core.stasks[k]))
      && LateOnly(m.posted, c.hist.posted, early)
  }

  lemma EnteredMarksNow(cfg: Config, c: Conn, m: Marks)
    requires Aligned(c, m) && Enabled(c.core, Accept)
    ensures Aligned(StepConn(cfg, c, Accept), StepMarks(cfg, c.core, m, Accept))
    ensures EnteredMarks(cfg, c.core, StepConn(cfg, c, Accept), StepMarks(cfg, c.core, m, Accept), 0)
  {
    AlignedStep(cfg, c, m, Accept);
  }

  lemma LeftoverCodes(cfg: Config, session: Option<SessionState>, t: STask)
    requires Leftover(t) && !Fatal(session, t)
    ensures var codes := Codes(RollSession(cfg, session, t).notes);
      forall k :: 0 <= k < |codes| ==> LateCode(codes[k])
  {
    var notes := RollSession(cfg, session, t).notes;
    if notes != [] {
      assert notes == [notes[0]] && Codes(notes) == CodeOf(notes[0]) + Codes([]);
    }
  }

  /** Late replies to a former client, one such task further. */
  lemma LatePosted(cfg: Config, session: Option<SessionState>, t: STask, marks: seq<bool>, posted: seq<nat>, early: nat)
    requires Leftover(t) && !Fatal(session, t) && |marks| == |posted|
    requires LateOnly(marks, posted, early)
    ensures var codes := Codes(RollSession(cfg, session, t).notes);
      LateOnly(marks + Same(false, |codes|), posted + codes, early)
  {
    hide RollSession, Same;
    LeftoverCodes(cfg, session, t);
  }

  lemma PostedByLoop(c: ClientState, n: Note, port: int)
    ensures var posts := HandleNote(c, n, port).1;
      forall k :: 0 <= k < |posts| ==> Leftover(posts[k])
  {
  }

  lemma PostedByDisk(disk: Option<DiskState>, t: DTask, o: Oracle)
    ensures var posts := RollDisk(disk, t, o).stasks;
      forall k :: 0 <= k < |posts| ==> Leftover(posts[k])
  {
  }

  lemma EnteredMarksStep(cfg: Config, c0: Core, c: Conn, m: Marks, n: nat, e: Event)
    requires Aligned(c, m) && Entered(cfg, c0, c, n) && EnteredMarks(cfg, c0, c, m, n)
    requires Enabled(c.core, e) && !e.Accept?
    ensures Aligned(StepConn(cfg, c, e), StepMarks(cfg, c.core, m, e))
    ensures EnteredMarks(cfg, c0, StepConn(cfg, c, e), StepMarks(cfg, c.core, m, e),
                         if e.SessionStep? then n + 1 else n)
  {
    hide RollSession, RollDisk, HandleNote, HandleData, HandleDrain, Codes, RecordFlow, RecordAccess, FactsOf, Fatal,
      AnswersTo, FoldFrom;
    AlignedStep(cfg, c, m, e);
    match e {
      case Notify(port) => PostedByLoop(c.core.client.value, c.core.notes[0], port);
      case DiskStep(o) => PostedByDisk(c.core.disk, c.core.dtasks[0], o);
      case SessionStep =>
        var held := |c0.stasks|;
        if n == held {
          assert c0.stasks[..held] == c0.stasks;
          assert c0.stasks[held..] + [TaskAccept] == [TaskAccept];
          GreetingCode(cfg, c.core.session);
        } else if n > held && !m.stasks[0] {
          LatePosted(cfg, c.core.session, c.core.stasks[0], m.posted, c.hist.posted, |Inherited(cfg, c0)|);
        }
      case _ =>
    }
  }

  /**
   Replies that go back to a former client, exactly: those inherited come before the client's own greeting and
   are all there is before it; later ones only report on a PASV or a transfer that the former client began.
   So the client's own greeting is the first reply it is to get if and only if nothing is inherited.
   */
  lemma {:induction false} FormerReplies(cfg: Config, before: seq<Event>, since: seq<Event>)
    requires Run(cfg, before + [Accept] + since) && forall i :: 0 <= i < |since| ==> !since[i].Accept?
    ensures Run(cfg, before)
    ensures var all := before + [Accept] + since; var c0 := After(cfg, before).core;
      && Aligned(After(cfg, all), MarksAfter(cfg, all))
      && EnteredMarks(cfg, c0, After(cfg, all), MarksAfter(cfg, all), Turns(since))
      && (Turns(since) > |c0.stasks| ==> (MarksAfter(cfg, all).posted[0] <==> Inherited(cfg, c0) == []))
  {
    hide Entered, StepConn, StepMarks, Aligned;
    var all := before + [Accept] + since;
    RunPrefix(cfg, before, [Accept] + since);
    assert before + ([Accept] + since) == all;
    if since == [] {
      assert all == before + [Accept] && all[..|all| - 1] == before;
      MarksAligned(cfg, before);
      EnteredMarksNow(cfg, After(cfg, before), MarksAfter(cfg, before));
    } else {
      var earlier := since[..|since| - 1];
      var prefix := before + [Accept] + earlier;
      assert all[..|all| - 1] == prefix;
      FormerReplies(cfg, before, earlier);
      InheritedFirst(cfg, before, earlier);
      EnteredMarksStep(cfg, After(cfg, before).core, After(cfg, prefix), MarksAfter(cfg, prefix), Turns(earlier),
                       since[|since| - 1]);
    }
  }
}
