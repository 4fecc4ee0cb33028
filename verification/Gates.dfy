/**
 What the session state machine guarantees in every run, whatever the client sends and whenever it
 connects: no transfer on a session that is not logged in, without the right, or more often than
 allowed.  A session outlives its client, so who logged in may have been an earlier client of the
 descriptor: `LoginSource` says exactly when, `Witnesses.StaleLogin` that it happens.
 */
module Gates {
  import opened Types
  import opened Protocol
  import opened History

  ghost predicate LoggedIn(c: Core) {
    c.session.Some? && c.session.value.login
  }

  ghost predicate PasvPending(c: Core) {
    NotePasv in c.notes || exists t :: t in c.stasks && t.TaskPasv?
  }

  function Action(c: Core): DataAction {
    if c.session.None? then Waiting else c.session.value.action
  }

  predicate Allowed(f: Fact) {
    f.Accepted? ==> f.login && f.right
  }

  /** Some fact before position `n` accepted a command of this kind. */
  ghost predicate AcceptedBefore(facts: seq<Fact>, n: int, k: Kind) {
    exists j :: 0 <= j < n && j < |facts| && facts[j] == Accepted(k, true, true)
  }

  /** How many facts concern a download (LIST or RETR): 0 counts PASV, 1 accepted commands, 2 start tasks. */
  function Stage(f: Fact): int {
    match f
    case Prepared => 0
    case Accepted(k, _, _) => if k.KindStor? then -1 else 1
    case Started(k) => if k.KindStor? then -1 else 2
  }

  function Count(facts: seq<Fact>, stage: int): nat {
    if facts == [] then 0
    else Count(facts[..|facts| - 1], stage) + (if Stage(facts[|facts| - 1]) == stage then 1 else 0)
  }

  lemma CountSnoc(facts: seq<Fact>, f: Fact, stage: int)
    ensures Count(facts + [f], stage) == Count(facts, stage) + (if Stage(f) == stage then 1 else 0)
  {
    assert (facts + [f])[..|facts|] == facts;
  }

  // ---------------------------------------------------------------- login

  ghost predicate LoginInv(c: Core) {
    Action(c) != Waiting || PasvPending(c) ==> LoggedIn(c)
  }

  lemma LoginStep(cfg: Config, c: Core, e: Event)
    requires LoginInv(c) && Enabled(c, e)
    ensures LoginInv(Step(cfg, c, e))
  {
    if !LoggedIn(c) {
      assert forall t :: t in c.stasks ==> !t.TaskPasv?;
    }
  }

  // ---------------------------------------------------------------- rights and counting

  ghost predicate FactsInv(a: DataAction, facts: seq<Fact>) {
    && (forall i :: 0 <= i < |facts| ==> Allowed(facts[i]))
    && (KindOf(a).Some? ==> AcceptedBefore(facts, |facts|, KindOf(a).value))
    && (forall i :: 0 <= i < |facts| && facts[i].Started? ==> AcceptedBefore(facts, i, facts[i].kind))
    && Count(facts, 2) + (if a in {Listing, Retrieving} then 1 else 0) <= Count(facts, 1)
    && Count(facts, 1) + (if a == PasvOk then 1 else 0) <= Count(facts, 0)
  }

  /** Facts are only ever added at the end, so earlier acceptances stay visible. */
  lemma FactsGrow(facts: seq<Fact>, f: Fact)
    ensures forall n, k :: AcceptedBefore(facts, n, k) ==> AcceptedBefore(facts + [f], n, k)
  {
    forall n, k | AcceptedBefore(facts, n, k)
      ensures AcceptedBefore(facts + [f], n, k)
    {
      var j :| 0 <= j < n && j < |facts| && facts[j] == Accepted(k, true, true);
      assert (facts + [f])[j] == facts[j];
    }
  }

  lemma AddFact(a: DataAction, facts: seq<Fact>, f: Fact, a': DataAction)
    requires FactsInv(a, facts) && Allowed(f)
    requires f == Prepared ==> a' == PasvOk
    requires f.Accepted? ==> KindOf(a') == Some(f.kind) && (!f.kind.KindStor? ==> a == PasvOk)
    requires f.Started? ==> KindOf(a) == Some(f.kind) && (a' == a == Storing || a' in {IndexDownload, FileDownload})
    ensures FactsInv(a', facts + [f])
  {
    var fs := facts + [f];
    FactsGrow(facts, f);
    CountSnoc(facts, f, 0);
    CountSnoc(facts, f, 1);
    CountSnoc(facts, f, 2);
    assert fs[|facts|] == f;
    forall i | 0 <= i < |fs| && fs[i].Started?
      ensures AcceptedBefore(fs, i, fs[i].kind)
    {
      if i < |facts| {
        assert facts[i] == fs[i];
        assert AcceptedBefore(facts, i, facts[i].kind);
      }
    }
    if f.Accepted? {
      assert AcceptedBefore(fs, |fs|, f.kind);
    } else if KindOf(a').Some? {
      assert AcceptedBefore(facts, |facts|, KindOf(a).value);
      assert AcceptedBefore(fs, |facts|, KindOf(a).value);
      assert AcceptedBefore(fs, |fs|, KindOf(a').value);
    }
  }

  lemma FactsSessionStep(cfg: Config, s: SessionState, t: STask, facts: seq<Fact>)
    requires !Fatal(Some(s), t)
    requires FactsInv(s.action, facts)
    requires s.action != Waiting || t.TaskPasv? ==> s.login
    ensures FactsInv(RollSession(cfg, Some(s), t).session.value.action, facts + FactsOf(cfg, s, t))
  {
    var s' := RollSession(cfg, Some(s), t).session.value;
    var fs := FactsOf(cfg, s, t);
    if |fs| == 1 {
      AddFact(s.action, facts, fs[0], s'.action);
      assert fs == [fs[0]];
    } else {
      assert facts + fs == facts;
    }
  }

  /** The Started fact is recorded exactly when a start task of that kind goes to the disk worker. */
  lemma StartedMeansPosted(cfg: Config, s: SessionState, t: STask)
    requires !Fatal(Some(s), t)
    ensures var d := RollSession(cfg, Some(s), t).dtasks; var fs := FactsOf(cfg, s, t);
      && |d| <= 1
      && (Started(KindList) in fs <==> DiskIndexStart in d)
      && (Started(KindStor) in fs <==> exists r :: DiskStorStart(r) in d)
      && (Started(KindRetr) in fs <==> exists r :: DiskRetrStart(r) in d)
  {
    if t.TaskDataAccept? {
      assert s.action == Storing ==> DiskStorStart(s.rest) in RollSession(cfg, Some(s), t).dtasks;
      assert s.action == Retrieving ==> DiskRetrStart(s.rest) in RollSession(cfg, Some(s), t).dtasks;
    }
  }

  // ---------------------------------------------------------------- whole runs

  ghost predicate GateInv(c: Conn) {
    LoginInv(c.core) && FactsInv(Action(c.core), c.hist.facts)
  }

  lemma GateStep(cfg: Config, c: Conn, e: Event)
    requires GateInv(c) && Enabled(c.core, e)
    ensures GateInv(StepConn(cfg, c, e))
  {
    LoginStep(cfg, c.core, e);
    if e.SessionStep? && c.core.session.Some? {
      var t := c.core.stasks[0];
      assert t.TaskPasv? ==> PasvPending(c.core);
      FactsSessionStep(cfg, c.core.session.value, t, c.hist.facts);
    }
  }

  lemma {:induction false} GatesHold(cfg: Config, es: seq<Event>)
    requires Run(cfg, es)
    ensures GateInv(After(cfg, es))
  {
    if es != [] {
      GatesHold(cfg, es[..|es| - 1]);
      GateStep(cfg, After(cfg, es[..|es| - 1]), es[|es| - 1]);
    }
  }

  /** A session whose data channel is in use, or that has a PASV on its way, is logged in. */
  lemma LoginGate(cfg: Config, es: seq<Event>)
    requires Run(cfg, es)
    ensures var c := After(cfg, es).core;
      Action(c) != Waiting || PasvPending(c) ==> LoggedIn(c)
  {
    GatesHold(cfg, es);
  }

  /** Every start task follows a command of its kind that was accepted on a logged-in session with the right. */
  lemma RightsGate(cfg: Config, es: seq<Event>, i: nat)
    requires Run(cfg, es) && i < |After(cfg, es).hist.facts| && After(cfg, es).hist.facts[i].Started?
    ensures var facts := After(cfg, es).hist.facts;
      exists j :: 0 <= j < i && facts[j] == Accepted(facts[i].kind, true, true)
  {
    GatesHold(cfg, es);
    var facts := After(cfg, es).hist.facts;
    assert AcceptedBefore(facts, i, facts[i].kind);
  }

  /** At every moment: downloads started <= downloads accepted <= passive connections prepared. */
  lemma StartCounting(cfg: Config, es: seq<Event>)
    requires Run(cfg, es)
    ensures var facts := After(cfg, es).hist.facts; var a := Action(After(cfg, es).core);
      && Count(facts, 2) + (if a in {Listing, Retrieving} then 1 else 0) <= Count(facts, 1)
      && Count(facts, 1) + (if a == PasvOk then 1 else 0) <= Count(facts, 0)
  {
    GatesHold(cfg, es);
  }

  // ---------------------------------------------------------------- whose login it is

  ghost predicate AccessInv(c: Conn) {
    LoggedIn(c.core) <==> c.hist.access.own || c.hist.access.kept
  }

  lemma AccessStep(cfg: Config, c: Conn, e: Event)
    requires AccessInv(c) && Enabled(c.core, e)
    ensures AccessInv(StepConn(cfg, c, e))
  {
    hide RollDisk, HandleData, HandleDrain, HandleNote, HandleWrite, RecordFlow, RecordPosted, FactsOf;
  }

  lemma {:induction false} AccessHolds(cfg: Config, es: seq<Event>)
    requires Run(cfg, es)
    ensures AccessInv(After(cfg, es))
  {
    if es != [] {
      AccessHolds(cfg, es[..|es| - 1]);
      AccessStep(cfg, After(cfg, es[..|es| - 1]), es[|es| - 1]);
    }
  }

  /**
   Since its accept task was handled, a client's session is logged in without a PASS of its own if and only
   if the descriptor had a logged-in session at that task already; only then can it transfer without one.
   */
  lemma LoginSource(cfg: Config, es: seq<Event>)
    requires Run(cfg, es)
    ensures var c := After(cfg, es).core; var a := After(cfg, es).hist.access;
      && (LoggedIn(c) && !a.own <==> a.kept && !a.own)
      && (Action(c) != Waiting || PasvPending(c) ==> a.own || a.kept)
  {
    AccessHolds(cfg, es);
    LoginGate(cfg, es);
  }

  /** What `kept` records: the login of the session the descriptor has when an accept task is handled. */
  lemma KeptIsEarlierLogin(cfg: Config, c: Conn)
    requires Enabled(c.core, SessionStep) && c.core.stasks[0].TaskAccept?
    ensures var c' := StepConn(cfg, c, SessionStep);
      !c'.hist.access.own && (c'.hist.access.kept <==> LoggedIn(c.core)) && (LoggedIn(c'.core) <==> LoggedIn(c.core))
  {
  }
}
