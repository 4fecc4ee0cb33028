/**
 What a session knows, answers and starts, read off the tasks that it has handled: who logged in, with which
 rights, from which offset a transfer is asked for, and which command is accepted.
 */
module Sessions {
  import opened Types
  import opened Protocol
  import opened History
  import opened Transfers
  import opened TransferSteps
  import opened Guarantees
  import FileIndex

  /** The tasks handled for the session of a connection, from the accept task that created it on. */
  function Handled(cfg: Config, es: seq<Event>): seq<STask>
    requires Run(cfg, es)
  {
    if es == [] then []
    else
      var ts := Handled(cfg, es[..|es| - 1]);
      var c := After(cfg, es[..|es| - 1]).core;
      if es[|es| - 1].SessionStep? && (ts != [] || c.stasks[0].TaskAccept?) then ts + [c.stasks[0]] else ts
  }

  // ---------------------------------------------------------------- what the tasks say

  /** The kind of name that the last USER to set one has set. */
  function NameOf(ts: seq<STask>): Name {
    if ts == [] then Unnamed
    else
      var before := NameOf(ts[..|ts| - 1]);
      match ts[|ts| - 1]
      case TaskRead(Whole(User(anonymous, builtin, entry))) =>
        if builtin then Named
        else if entry.Some? then (if entry.value.anonymous then Anonymous else Named)
        else if anonymous then Anonymous else before
      case _ => before
  }

  /** The rights in the entry that the task, a USER, finds. */
  function FoundBy(t: STask): Option<Rights> {
    match t
    case TaskRead(Whole(User(_, false, Some(entry)))) => Some(entry.rights)
    case _ => None
  }

  function EntryOf(ts: seq<STask>): Option<Rights> {
    if ts == [] then None
    else if FoundBy(ts[|ts| - 1]).Some? then FoundBy(ts[|ts| - 1])
    else EntryOf(ts[..|ts| - 1])
  }

  /** After `ts`, the task is a PASS that lets the client in: for Anonymous any, for another name one that matches. */
  predicate Admits(ts: seq<STask>, t: STask) {
    match t
    case TaskRead(Whole(Pass(matches))) => NameOf(ts) == Anonymous || (NameOf(ts) == Named && matches)
    case _ => false
  }

  predicate LoggedInBy(ts: seq<STask>) {
    exists i :: 0 <= i < |ts| && Admits(ts[..i], ts[i])
  }

  predicate AdmitsNamed(ts: seq<STask>, t: STask) {
    Admits(ts, t) && NameOf(ts) == Named
  }

  /** The rights of the account that the last PASS for a named user has let in. */
  function RightsOf(ts: seq<STask>): Rights {
    if ts == [] then Rights(false, false)
    else
      var before := ts[..|ts| - 1];
      if AdmitsNamed(before, ts[|ts| - 1]) && EntryOf(before).Some? then EntryOf(before).value else RightsOf(before)
  }

  /** After `ts`, the task sets the offset: a REST to its argument, an accepted APPE to the size of its target. */
  function OffsetSetBy(ts: seq<STask>, t: STask): Option<int> {
    match t
    case TaskRead(Whole(Rest(offset))) => Some(offset)
    case TaskRead(Whole(Appe(target))) =>
      if !LoggedInBy(ts) || !RightsOf(ts).upload || target.Refused? then None
      else if target.Missing? then Some(0) else Some(target.size)
    case _ => None
  }

  /** What the last task to set the offset has set it to. */
  function OffsetOf(ts: seq<STask>): int {
    if ts == [] then 0
    else
      var before := ts[..|ts| - 1];
      if OffsetSetBy(before, ts[|ts| - 1]).Some? then OffsetSetBy(before, ts[|ts| - 1]).value else OffsetOf(before)
  }

  /** An offset stays until another task sets it, however many transfers use it. */
  lemma {:induction false} OffsetStays(ts: seq<STask>, more: seq<STask>)
    requires forall i :: 0 <= i < |more| ==> !SetsOffset(more[i])
    ensures OffsetOf(ts + more) == OffsetOf(ts)
  {
    if more == [] {
      assert ts + more == ts;
    } else {
      var all := ts + more;
      assert all[..|all| - 1] == ts + more[..|more| - 1];
      OffsetStays(ts, more[..|more| - 1]);
    }
  }

  /** A REST or an APPE. */
  predicate SetsOffset(t: STask) {
    t.TaskRead? && t.line.Whole? && (t.line.command.Rest? || t.line.command.Appe?)
  }

  predicate InRange(cfg: Config, port: int) {
    cfg.startPort < port < cfg.endPort
  }

  /** When a transfer command is accepted. */
  predicate Accepts(cfg: Config, ts: seq<STask>, c: Command)
    decreases |ts|, 1
  {
    LoggedInBy(ts) &&
    match c
    case List => ActionOf(cfg, ts) == PasvOk
    case Stor(target) => ActionOf(cfg, ts) == PasvOk && RightsOf(ts).upload && target == Missing
    case Appe(target) => RightsOf(ts).upload && !target.Refused?
    case Retr(target) =>
      && ActionOf(cfg, ts) == PasvOk && RightsOf(ts).download
      && target.RegularFile? && (OffsetOf(ts) == 0 || OffsetOf(ts) <= target.size)
    case _ => false
  }

  /** What the data channel is prepared, asked or used for. */
  function ActionOf(cfg: Config, ts: seq<STask>): DataAction
    decreases |ts|, 0
  {
    if ts == [] then Waiting
    else
      var before := ts[..|ts| - 1];
      var action := ActionOf(cfg, before);
      match ts[|ts| - 1]
      case TaskPasv(port) => if InRange(cfg, port) then PasvOk else action
      case TaskTransOk => Waiting
      case TaskDataAccept =>
        if action == Listing then IndexDownload else if action == Retrieving then FileDownload else action
      case TaskRead(Whole(c)) =>
        if !Accepts(cfg, before, c) then action
        else if c.List? then Listing else if c.Retr? then Retrieving else Storing
      case _ => action
  }

  function Known(cfg: Config, ts: seq<STask>): SessionState {
    SessionState(LoggedInBy(ts), RightsOf(ts), NameOf(ts), EntryOf(ts), ActionOf(cfg, ts), OffsetOf(ts))
  }

  // ---------------------------------------------------------------- what is answered and started

  /** The reply to a transfer command that is not accepted. */
  function Refusal(cfg: Config, ts: seq<STask>, c: Command): nat {
    if !LoggedInBy(ts) then 530
    else if !c.Appe? && ActionOf(cfg, ts) != PasvOk then 425
    else if c.Retr? && RightsOf(ts).download && c.target.RegularFile? then 554
    else 550
  }

  /** What the session worker posts to the event loop for a task, after `ts`. */
  function AnswerTo(cfg: Config, ts: seq<STask>, t: STask): seq<Note> {
    match t
    case TaskAccept => [NoteReply(220)]
    case TaskRead(Whole(c)) =>
      (match c
       case User(_, builtin, entry) => [NoteReply(if builtin || entry.Some? then 331 else 530)]
       case Pass(_) => [NoteReply(if Admits(ts, t) then 230 else 530)]
       case Pasv => [if LoggedInBy(ts) then NotePasv else NoteReply(530)]
       case Rest(_) => [NoteReply(350)]
       case Info(reply) => [NoteReply(InfoCode(reply))]
       case _ => if Accepts(cfg, ts, c) then [] else [NoteReply(Refusal(cfg, ts, c))])
    case TaskPasv(port) => [NoteReply(if InRange(cfg, port) then 227 else 502)]
    case TaskDataAccept => if ActionOf(cfg, ts) in {Listing, Retrieving} then [NoteReply(150)] else []
    case TaskStorStart => [NoteReply(150)]
    case TaskTransOk => [NoteTransOk]
    case _ => []
  }

  /** The start task that a task makes the session worker post, after `ts`. */
  function StartFor(cfg: Config, ts: seq<STask>, t: STask): seq<DTask> {
    if !t.TaskDataAccept? then []
    else match ActionOf(cfg, ts)
      case Listing => [DiskIndexStart]
      case Storing => [DiskStorStart(OffsetOf(ts))]
      case Retrieving => [DiskRetrStart(OffsetOf(ts))]
      case _ => []
  }

  // ---------------------------------------------------------------- one task

  lemma LoggedInSnoc(ts: seq<STask>, t: STask)
    ensures LoggedInBy(ts + [t]) <==> LoggedInBy(ts) || Admits(ts, t)
  {
    var all := ts + [t];
    assert all[..|ts|] == ts;
    if LoggedInBy(ts) {
      var i :| 0 <= i < |ts| && Admits(ts[..i], ts[i]);
      assert all[..i] == ts[..i] && Admits(all[..i], all[i]);
    }
    if Admits(ts, t) {
      assert Admits(all[..|ts|], all[|ts|]);
    }
    if LoggedInBy(all) {
      var i :| 0 <= i < |all| && Admits(all[..i], all[i]);
      assert i < |ts| ==> all[..i] == ts[..i];
    }
  }

  /** Handling one more task leaves a session that knows that task too. */
  lemma TaskKnown(cfg: Config, ts: seq<STask>, t: STask)
    requires ts != [] && !Fatal(Some(Known(cfg, ts)), t)
    ensures RollSession(cfg, Some(Known(cfg, ts)), t).session == Some(Known(cfg, ts + [t]))
  {
    hide LoggedInBy;
    var all := ts + [t];
    assert all[..|all| - 1] == ts && all[|all| - 1] == t;
    LoggedInSnoc(ts, t);
    var s := RollSession(cfg, Some(Known(cfg, ts)), t).session.value;
    assert s.login == LoggedInBy(all);
    assert s.rights == RightsOf(all);
    assert s.name == NameOf(all);
    assert s.info == EntryOf(all);
    assert s.rest == OffsetOf(all);
    assert s.action == ActionOf(cfg, all);
  }

  /** What it posts follows from the tasks handled before. */
  lemma AnswerKnown(cfg: Config, ts: seq<STask>, t: STask)
    requires ts != [] && !Fatal(Some(Known(cfg, ts)), t)
    ensures var r := RollSession(cfg, Some(Known(cfg, ts)), t);
      r.notes == AnswerTo(cfg, ts, t) && r.dtasks == StartFor(cfg, ts, t)
  {
    hide LoggedInBy, RightsOf, NameOf, EntryOf, ActionOf, OffsetOf;
  }

  lemma FirstTaskKnown(cfg: Config)
    ensures Known(cfg, [TaskAccept]) == NEW_SESSION
  {
    assert [TaskAccept][..0] == [];
  }

  // ---------------------------------------------------------------- every run

  /** The next task of the session worker is for a session, an old one or the one it creates. */
  ghost predicate Counts(cfg: Config, es: seq<Event>)
    requires Run(cfg, es)
  {
    var c := After(cfg, es).core;
    c.stasks != [] && (Handled(cfg, es) != [] || c.stasks[0].TaskAccept?)
  }

  /** In every run the session is what the tasks handled for it say. */
  lemma {:induction false} SessionKnown(cfg: Config, es: seq<Event>)
    requires Run(cfg, es)
    ensures var ts := Handled(cfg, es);
      After(cfg, es).core.session == if ts == [] then None else Some(Known(cfg, ts))
  {
    hide Known, Fatal, RecordFlow, RecordAccess, RecordFacts, RecordPosted, RollDisk;
    if es != [] {
      var before := es[..|es| - 1];
      SessionKnown(cfg, before);
      if es[|es| - 1].SessionStep? {
        var ts := Handled(cfg, before);
        var t := After(cfg, before).core.stasks[0];
        if ts != [] {
          TaskKnown(cfg, ts, t);
        } else if t.TaskAccept? {
          FirstTaskKnown(cfg);
          assert Handled(cfg, es) == [TaskAccept];
        }
      }
    }
  }

  /**
   In every run, what the session worker posts for its next task follows from the tasks handled before: the
   replies and the start tasks, each in its place at the end of its queue.
   */
  lemma TaskAnswered(cfg: Config, es: seq<Event>)
    requires Run(cfg, es) && Enabled(After(cfg, es).core, SessionStep)
    ensures var ts := Handled(cfg, es); var c := After(cfg, es).core; var c' := Step(cfg, c, SessionStep);
      && c'.notes == c.notes + (if Counts(cfg, es) then AnswerTo(cfg, ts, c.stasks[0]) else [])
      && c'.dtasks == c.dtasks + (if Counts(cfg, es) then StartFor(cfg, ts, c.stasks[0]) else [])
  {
    hide Known, Fatal, After, Run, Handled, ActionOf;
    var ts := Handled(cfg, es);
    SessionKnown(cfg, es);
    if ts != [] {
      AnswerKnown(cfg, ts, After(cfg, es).core.stasks[0]);
    }
  }

  // ---------------------------------------------------------------- login and rights

  /** Handling a PASS: who is logged in after it, with which rights, and what is answered. */
  lemma PassMeaning(cfg: Config, c: Core, s: SessionState, matches: bool)
    requires Enabled(c, SessionStep) && c.stasks[0] == TaskRead(Whole(Pass(matches))) && c.session == Some(s)
    ensures var admitted := s.name == Anonymous || (s.name == Named && matches); var c' := Step(cfg, c, SessionStep);
      && c'.session.Some? && (c'.session.value.login <==> s.login || admitted)
      && (s.name == Named && matches ==> Some(c'.session.value.rights) == s.info)
      && (!(s.name == Named && matches) ==> c'.session.value.rights == s.rights)
      && c'.notes == c.notes + [NoteReply(if admitted then 230 else 530)]
  {
  }

  lemma AdmitsMeaning(ts: seq<STask>, t: STask)
    ensures Admits(ts, t) <==>
      (t == TaskRead(Whole(Pass(true))) && NameOf(ts) != Unnamed) ||
      (t == TaskRead(Whole(Pass(false))) && NameOf(ts) == Anonymous)
  {
    hide NameOf;
  }

  /** A session is logged in if and only if it has handled a PASS that lets its client in. */
  lemma LoginMeaning(cfg: Config, es: seq<Event>)
    requires Run(cfg, es)
    ensures var ts := Handled(cfg, es); var s := After(cfg, es).core.session;
      (s.Some? && s.value.login) <==>
      (exists i :: 0 <= i < |ts| &&
        ((ts[i] == TaskRead(Whole(Pass(true))) && NameOf(ts[..i]) != Unnamed) ||
         (ts[i] == TaskRead(Whole(Pass(false))) && NameOf(ts[..i]) == Anonymous)))
  {
    hide Handled, After, Admits, NameOf;
    var ts := Handled(cfg, es);
    SessionKnown(cfg, es);
    forall i | 0 <= i < |ts|
      ensures Admits(ts[..i], ts[i]) <==>
        (ts[i] == TaskRead(Whole(Pass(true))) && NameOf(ts[..i]) != Unnamed) ||
        (ts[i] == TaskRead(Whole(Pass(false))) && NameOf(ts[..i]) == Anonymous)
    {
      AdmitsMeaning(ts[..i], ts[i]);
    }
  }

  /** The current entry was found by some USER, and by none after it. */
  lemma {:induction false} EntryAt(ts: seq<STask>) returns (u: nat)
    requires EntryOf(ts).Some?
    ensures u < |ts| && FoundBy(ts[u]) == EntryOf(ts) && forall j :: u < j < |ts| ==> FoundBy(ts[j]).None?
  {
    u := |ts| - 1;
    if FoundBy(ts[u]).None? {
      u := EntryAt(ts[..|ts| - 1]);
    }
  }

  /** A named user is only let in when some USER has found an entry: the PASS of another one ends the process. */
  lemma {:induction false} AdmittedHasEntry(cfg: Config, es: seq<Event>)
    requires Run(cfg, es)
    ensures var ts := Handled(cfg, es);
      forall i :: 0 <= i < |ts| && AdmitsNamed(ts[..i], ts[i]) ==> EntryOf(ts[..i]).Some?
  {
    if es != [] {
      var before := es[..|es| - 1];
      var ts := Handled(cfg, before);
      var all := Handled(cfg, es);
      AdmittedHasEntry(cfg, before);
      SessionKnown(cfg, before);
      forall i | 0 <= i < |all| && AdmitsNamed(all[..i], all[i]) ensures EntryOf(all[..i]).Some? {
        if i < |ts| {
          assert all[..i] == ts[..i];
        } else {
          assert all[..i] == ts;
        }
      }
    }
  }

  lemma {:induction false} RightsAt(ts: seq<STask>, i: nat)
    requires i < |ts| && AdmitsNamed(ts[..i], ts[i]) && EntryOf(ts[..i]).Some?
    requires forall j :: i < j < |ts| ==> !AdmitsNamed(ts[..j], ts[j])
    ensures Some(RightsOf(ts)) == EntryOf(ts[..i])
  {
    var before := ts[..|ts| - 1];
    if i < |before| {
      assert !AdmitsNamed(ts[..|ts| - 1], ts[|ts| - 1]);
      assert forall j :: 0 <= j <= |before| ==> before[..j] == ts[..j];
      RightsAt(before, i);
    }
  }

  /** The rights of a session come from the last USER to find an entry before the last PASS to let a named user in. */
  lemma RightsMeaning(cfg: Config, es: seq<Event>, i: nat) returns (u: nat)
    requires Run(cfg, es) && i < |Handled(cfg, es)|
    requires var ts := Handled(cfg, es);
      AdmitsNamed(ts[..i], ts[i]) && forall j :: i < j < |ts| ==> !AdmitsNamed(ts[..j], ts[j])
    ensures var ts := Handled(cfg, es); var s := After(cfg, es).core.session;
      && u < i && s.Some? && FoundBy(ts[u]) == Some(s.value.rights)
      && forall j :: u < j < i ==> FoundBy(ts[j]).None?
  {
    hide Handled, After, Admits, NameOf;
    var ts := Handled(cfg, es);
    SessionKnown(cfg, es);
    AdmittedHasEntry(cfg, es);
    RightsAt(ts, i);
    u := EntryAt(ts[..i]);
    assert forall j :: u < j < i ==> ts[..i][j] == ts[j];
  }

  // ---------------------------------------------------------------- start tasks

  /** What the next task of the session worker makes it start. */
  function StartNext(cfg: Config, es: seq<Event>): seq<DTask>
    requires Run(cfg, es)
  {
    var c := After(cfg, es).core;
    if c.stasks != [] && Handled(cfg, es) != [] then StartFor(cfg, Handled(cfg, es), c.stasks[0]) else []
  }

  /** The start tasks that the session tasks of the run ask for. */
  function StartsAsked(cfg: Config, es: seq<Event>): seq<DTask>
    requires Run(cfg, es)
  {
    if es == [] then []
    else
      StartsAsked(cfg, es[..|es| - 1]) + if es[|es| - 1].SessionStep? then StartNext(cfg, es[..|es| - 1]) else []
  }

  /** The start tasks that the disk worker has handled. */
  function StartsHandled(cfg: Config, es: seq<Event>): seq<DTask>
    requires Run(cfg, es)
  {
    if es == [] then []
    else
      StartsHandled(cfg, es[..|es| - 1]) + StartsTaken(After(cfg, es[..|es| - 1]).core, es[|es| - 1])
  }

  function OnlyStarts(ts: seq<DTask>): seq<DTask> {
    if ts == [] then [] else (if Starts(ts[0]) then [ts[0]] else []) + OnlyStarts(ts[1..])
  }

  lemma {:induction false} OnlyStartsAppend(a: seq<DTask>, b: seq<DTask>)
    ensures OnlyStarts(a + b) == OnlyStarts(a) + OnlyStarts(b)
  {
    if a == [] {
      assert a + b == b;
    } else {
      OnlyStartsAppend(a[1..], b);
      HeadTail(a, b);
    }
  }

  /** The start tasks that an event takes from the disk worker's queue. */
  function StartsTaken(c: Core, e: Event): seq<DTask> {
    if e.DiskStep? && c.dtasks != [] && Starts(c.dtasks[0]) then [c.dtasks[0]] else []
  }

  lemma NoStarts(ts: seq<DTask>, more: seq<DTask>)
    requires |more| <= 1 && (more != [] ==> !Starts(more[0]))
    ensures OnlyStarts(ts + more) == OnlyStarts(ts)
  {
    assert OnlyStarts(more) == [];
    OnlyStartsAppend(ts, more);
  }

  lemma StartsOnly(cfg: Config, ts: seq<STask>, t: STask)
    ensures OnlyStarts(StartFor(cfg, ts, t)) == StartFor(cfg, ts, t)
    ensures t.TaskAccept? ==> StartFor(cfg, ts, t) == []
    ensures OnlyStarts([]) == []
  {
  }

  /** One event keeps that the start tasks handled and those waiting are the ones asked for. */
  lemma StartsStep(cfg: Config, es: seq<Event>, e: Event)
    requires Run(cfg, es) && Enabled(After(cfg, es).core, e)
    ensures var c := After(cfg, es).core;
      StartsTaken(c, e) + OnlyStarts(Step(cfg, c, e).dtasks) ==
      OnlyStarts(c.dtasks) + (if e.SessionStep? then StartNext(cfg, es) else [])
  {
    hide Run, After, Handled, RollSession, RollDisk, HandleNote, HandleWrite, StartFor, OnlyStarts;
    var c := After(cfg, es).core;
    var ts := c.dtasks;
    assert OnlyStarts(ts) + [] == OnlyStarts(ts);
    match e {
      case DiskStep(_) => FirstStart(ts);
      case SessionStep =>
        TaskAnswered(cfg, es);
        StartsOnly(cfg, Handled(cfg, es), c.stasks[0]);
        OnlyStartsAppend(ts, StartNext(cfg, es));
      case Receive(data) => NoStarts(ts, HandleData(c.client.value, data).1);
      case Drain(count) => NoStarts(ts, HandleDrain(c.client.value, count).1);
      case EndOfData => NoStarts(ts, [DiskStorOk(c.client.value.buf)]);
      case _ =>
    }
  }

  lemma FirstStart(ts: seq<DTask>)
    requires ts != []
    ensures OnlyStarts(ts) == (if Starts(ts[0]) then [ts[0]] else []) + OnlyStarts(ts[1..])
  {
  }

  /** In every run the start tasks handled, then those waiting, are the ones asked for, in order. */
  lemma {:induction false} StartsInOrder(cfg: Config, es: seq<Event>)
    requires Run(cfg, es)
    ensures StartsHandled(cfg, es) + OnlyStarts(After(cfg, es).core.dtasks) == StartsAsked(cfg, es)
  {
    hide Step, StartNext, StartsTaken, OnlyStarts, Handled, RecordFlow, RecordAccess, RecordFacts, RecordPosted;
    if es == [] {
      AtStart(cfg);
      NoneAtStart(cfg);
    } else {
      var before := es[..|es| - 1];
      var e := es[|es| - 1];
      var c := After(cfg, before).core;
      var asked := if e.SessionStep? then StartNext(cfg, before) else [];
      StartsInOrder(cfg, before);
      StartsStep(cfg, before, e);
      Assoc(StartsHandled(cfg, before), StartsTaken(c, e), OnlyStarts(Step(cfg, c, e).dtasks));
      Assoc(StartsHandled(cfg, before), OnlyStarts(c.dtasks), asked);
    }
  }

  lemma NoneAtStart(cfg: Config)
    ensures StartsHandled(cfg, []) == [] && StartsAsked(cfg, []) == [] && OnlyStarts([]) == []
  {
  }

  /** Event `p` of the run is the session worker handling a task that makes it start a transfer. */
  ghost predicate AskedAt(cfg: Config, es: seq<Event>, p: int) {
    && 0 <= p < |es| && es[p].SessionStep? && Run(cfg, es[..p])
    && After(cfg, es[..p]).core.stasks != [] && StartNext(cfg, es[..p]) != []
  }

  ghost predicate LastAskedAt(cfg: Config, es: seq<Event>, p: int) {
    AskedAt(cfg, es, p) && forall q :: p < q < |es| ==> !AskedAt(cfg, es, q)
  }

  /** Event `p` asked for the start task that event `i` handled. */
  ghost predicate AskedFor(cfg: Config, es: seq<Event>, p: int, i: int) {
    && StartAt(cfg, es, i) && AskedAt(cfg, es, p) && p < i
    && |StartsAsked(cfg, es[..p])| == |StartsHandled(cfg, es[..i])|
    && StartNext(cfg, es[..p]) == [After(cfg, es[..i]).core.dtasks[0]]
  }

  lemma {:induction false} AskedCount(cfg: Config, es: seq<Event>, k: nat) returns (p: nat)
    requires Run(cfg, es) && k < |StartsAsked(cfg, es)|
    ensures AskedAt(cfg, es, p) && |StartsAsked(cfg, es[..p])| == k
    ensures StartNext(cfg, es[..p]) == [StartsAsked(cfg, es)[k]]
  {
    hide StartNext;
    var before := es[..|es| - 1];
    assert forall q :: 0 <= q <= |before| ==> before[..q] == es[..q];
    if k < |StartsAsked(cfg, before)| {
      p := AskedCount(cfg, before, k);
    } else {
      p := |before|;
      AtMostOne(cfg, before);
    }
  }

  lemma AtMostOne(cfg: Config, es: seq<Event>)
    requires Run(cfg, es)
    ensures |StartNext(cfg, es)| <= 1
  {
    hide Handled, ActionOf, After;
  }

  /** In every run each start task handled was asked for earlier: the k-th one by the k-th task that asks for one. */
  lemma StartWasAsked(cfg: Config, es: seq<Event>, i: nat) returns (p: nat)
    requires Run(cfg, es) && StartAt(cfg, es, i)
    ensures AskedFor(cfg, es, p, i)
  {
    hide Run, After, StartNext, StartsAsked, StartsHandled;
    var before := es[..i];
    StartsInOrder(cfg, before);
    p := AskedCount(cfg, before, |StartsHandled(cfg, before)|);
    assert before[..p] == es[..p];
  }

  lemma {:induction false} AskedGrows(cfg: Config, es: seq<Event>, p: nat)
    requires Run(cfg, es) && p <= |es|
    ensures Run(cfg, es[..p]) && |StartsAsked(cfg, es[..p])| <= |StartsAsked(cfg, es)|
  {
    hide StartNext;
    if p == |es| {
      assert es[..p] == es;
    } else {
      assert es[..|es| - 1][..p] == es[..p];
      AskedGrows(cfg, es[..|es| - 1], p);
    }
  }

  lemma AskedAdds(cfg: Config, es: seq<Event>, p: nat, q: nat)
    requires Run(cfg, es) && AskedAt(cfg, es, p) && p < q <= |es|
    ensures Run(cfg, es[..q]) && |StartsAsked(cfg, es[..p])| < |StartsAsked(cfg, es[..q])|
  {
    hide StartNext;
    AskedGrows(cfg, es, q);
    AskedGrows(cfg, es[..q], p + 1);
    assert es[..q][..p + 1] == es[..p + 1] && es[..p + 1][..p] == es[..p];
  }

  lemma StartAtPrefix(cfg: Config, es: seq<Event>, k: nat, j: nat)
    requires j < k <= |es|
    ensures StartAt(cfg, es[..k], j) <==> StartAt(cfg, es, j)
  {
    hide Run, After, Starts;
    assert es[..k][..j] == es[..j];
  }

  lemma TakenAt(cfg: Config, es: seq<Event>)
    requires Run(cfg, es) && es != []
    ensures var before := es[..|es| - 1];
      && Run(cfg, before)
      && |StartsHandled(cfg, es)| == |StartsHandled(cfg, before)| + if StartAt(cfg, es, |before|) then 1 else 0
  {
    hide After, Starts;
  }

  lemma IndexInRun(cfg: Config, es: seq<Event>, i: int)
    ensures StartAt(cfg, es, i) ==> 0 <= i < |es| && Run(cfg, es[..i])
  {
    hide Run, After;
  }

  lemma {:induction false} HandledLast(cfg: Config, es: seq<Event>, i: nat)
    requires Run(cfg, es) && LastStartAt(cfg, es, i)
    ensures |StartsHandled(cfg, es)| == |StartsHandled(cfg, es[..i])| + 1
  {
    hide Run, StartAt, StartsHandled;
    IndexInRun(cfg, es, i);
    var before := es[..|es| - 1];
    TakenAt(cfg, es);
    if i < |before| {
      forall j: nat | j < |before| ensures StartAt(cfg, before, j) <==> StartAt(cfg, es, j) {
        StartAtPrefix(cfg, es, |before|, j);
      }
      HandledLast(cfg, before, i);
      assert before[..i] == es[..i];
    }
  }

  /** When no start task waits, the last one handled is the last one asked for. */
  lemma LastWasAsked(cfg: Config, es: seq<Event>, i: nat) returns (p: nat)
    requires Run(cfg, es) && LastStartAt(cfg, es, i) && After(cfg, es).core.dtasks == []
    ensures AskedFor(cfg, es, p, i) && LastAskedAt(cfg, es, p)
  {
    hide Run, After, StartNext, StartsAsked, StartsHandled, AskedAt, StartAt;
    p := StartWasAsked(cfg, es, i);
    StartsInOrder(cfg, es);
    HandledLast(cfg, es, i);
    assert es[..|es|] == es;
    forall q | p < q < |es| ensures !AskedAt(cfg, es, q) {
      if AskedAt(cfg, es, q) {
        AskedAdds(cfg, es, p, q);
        AskedAdds(cfg, es, q, |es|);
      }
    }
  }

  // ---------------------------------------------------------------- transfers end to end

  /** The task that asks for a start is the data connection, after an accepted command of its kind. */
  lemma {:induction false} AskedByCommand(cfg: Config, ts: seq<STask>) returns (j: nat)
    requires KindOf(ActionOf(cfg, ts)).Some?
    ensures j < |ts| && ts[j].TaskRead? && ts[j].line.Whole? && Accepts(cfg, ts[..j], ts[j].line.command)
    ensures var c := ts[j].line.command;
      match ActionOf(cfg, ts)
      case Listing => c.List?
      case Retrieving => c.Retr?
      case _ => c.Stor? || c.Appe?
  {
    j := |ts| - 1;
    var before := ts[..j];
    if ActionOf(cfg, ts) == ActionOf(cfg, before) {
      j := AskedByCommand(cfg, before);
      assert before[..j] == ts[..j];
    }
  }

  /**
   A finished download has sent the listing, or the file from the offset on that the last REST or accepted APPE
   has set: `p` is the last task to ask for a transfer, `i` the handling of its start task.
   */
  lemma DownloadSendsAsked(cfg: Config, es: seq<Event>) returns (p: nat, i: nat)
    requires PoliteRun(cfg, es)
    requires After(cfg, es).hist.flow.mode == Download && EndPosted(After(cfg, es).core)
    ensures Run(cfg, es) && LastAskedAt(cfg, es, p) && LastStartAt(cfg, es, i) && p < i
    ensures var ts := Handled(cfg, es[..p]); var sent := After(cfg, es).hist.flow.sent;
      match ActionOf(cfg, ts)
      case Listing => sent == Concat(FileIndex.Lines(FileIndex.Listable(es[i].oracle.dir)))
      case Retrieving => sent == Tail(es[i].oracle.file, SeekPos(ToInt32(OffsetOf(ts))))
      case _ => false
  {
    hide Run, After, AskedAt, Handled, ActionOf, OffsetOf, LastStartAt, SeekPos, ToInt32, Tail;
    i := DownloadSendsSource(cfg, es);
    EndIsQuiet(cfg, es);
    p := LastWasAsked(cfg, es, i);
  }

  /** A finished upload has put the bytes received into the file from that offset on. */
  lemma UploadWritesAsked(cfg: Config, es: seq<Event>) returns (p: nat, i: nat)
    requires PoliteRun(cfg, es)
    requires After(cfg, es).hist.flow.mode == Upload && EndPosted(After(cfg, es).core)
    ensures Run(cfg, es) && LastAskedAt(cfg, es, p) && LastStartAt(cfg, es, i) && p < i
    ensures var ts := Handled(cfg, es[..p]);
      && ActionOf(cfg, ts) == Storing
      && After(cfg, es).hist.flow.file ==
           WriteAt(es[i].oracle.file, SeekPos(ToInt32(OffsetOf(ts))), ReceivedAfter(es, i))
  {
    hide Run, After, AskedAt, Handled, ActionOf, OffsetOf, LastStartAt, SeekPos, ToInt32, WriteAt;
    i := UploadWritesReceived(cfg, es);
    EndIsQuiet(cfg, es);
    p := LastWasAsked(cfg, es, i);
  }

  lemma EndIsQuiet(cfg: Config, es: seq<Event>)
    requires PoliteRun(cfg, es) && EndPosted(After(cfg, es).core)
    ensures Run(cfg, es) && After(cfg, es).core.dtasks == []
  {
    hide In, After;
    AtStart(cfg);
    var p := PoliteRunsKeepPhases(cfg, es);
    EndPhase(After(cfg, es), p);
    EndHasNoTask(After(cfg, es), p);
  }
}
