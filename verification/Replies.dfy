/** The order of 150 and 226 on the control channel (RFC 959, section 5.4). */
module Replies {
  import opened Types
  import opened Protocol
  import opened History

  lemma {:induction false} CodesAppend(a: seq<Note>, b: seq<Note>)
    ensures Codes(a + b) == Codes(a) + Codes(b)
  {
    if a == [] {
      assert a + b == b;
    } else {
      CodesAppend(a[1..], b);
      HeadTail(a, b);
      Assoc(CodeOf(a[0]), Codes(a[1..]), Codes(b));
    }
  }

  /** How many transfers have been opened with 150 and not yet closed with 226. */
  function Owed(rs: seq<nat>): int {
    if rs == [] then 0 else Owed(rs[..|rs| - 1]) + Weight(rs[|rs| - 1])
  }

  function Weight(code: nat): int {
    if code == 150 then 1 else if code == 226 then -1 else 0
  }

  /** Every 226 closes the one 150 before it. */
  ghost predicate Alternates(rs: seq<nat>) {
    forall k :: 0 <= k <= |rs| ==> 0 <= Owed(rs[..k]) <= 1
  }

  lemma {:induction false} OwedAppend(a: seq<nat>, b: seq<nat>)
    ensures Owed(a + b) == Owed(a) + Owed(b)
  {
    if b == [] {
      assert a + b == a;
    } else {
      OwedAppend(a, b[..|b| - 1]);
      assert (a + b)[..|a + b| - 1] == a + b[..|b| - 1];
    }
  }

  lemma OwedOne(code: nat)
    ensures Owed([code]) == Weight(code)
  {
    assert [code][..0] == [];
  }

  lemma AlternatesSnoc(rs: seq<nat>, code: nat)
    requires Alternates(rs) && 0 <= Owed(rs) + Weight(code) <= 1
    ensures Alternates(rs + [code]) && Owed(rs + [code]) == Owed(rs) + Weight(code)
  {
    var all := rs + [code];
    assert all[..|rs|] == rs;
    forall k | 0 <= k <= |all|
      ensures 0 <= Owed(all[..k]) <= 1
    {
      if k <= |rs| {
        assert all[..k] == rs[..k];
      } else {
        assert all[..k] == all;
      }
    }
  }

  lemma AlternatesPrefix(a: seq<nat>, b: seq<nat>)
    requires Alternates(a + b)
    ensures Alternates(a)
  {
    forall k | 0 <= k <= |a|
      ensures 0 <= Owed(a[..k]) <= 1
    {
      assert (a + b)[..k] == a[..k];
    }
  }

  lemma {:induction false} NoTransOkOwes(notes: seq<Note>)
    requires NoteTransOk !in notes && forall n :: n in notes ==> n != NoteReply(226)
    ensures Owed(Codes(notes)) >= 0
    ensures NoteReply(150) in notes ==> Owed(Codes(notes)) > 0
  {
    if notes != [] {
      forall n | n in notes[1..]
        ensures n in notes
      {
      }
      NoTransOkOwes(notes[1..]);
      OwedAppend(CodeOf(notes[0]), Codes(notes[1..]));
      assert notes[0] in notes;
      if CodeOf(notes[0]) != [] {
        OwedOne(CodeOf(notes[0])[0]);
      }
    }
  }

  /** When nothing is owed and no 226 is on its way, no 150 is on its way either. */
  lemma NoGreetingPending(replies: seq<nat>, notes: seq<Note>)
    requires Alternates(replies + Codes(notes)) && Owed(replies + Codes(notes)) == 0
    requires NoteTransOk !in notes && forall n :: n in notes ==> n != NoteReply(226)
    ensures NoteReply(150) !in notes
  {
    NoTransOkOwes(notes);
    OwedAppend(replies, Codes(notes));
    assert (replies + Codes(notes))[..|replies|] == replies;
  }

  lemma {:induction false} OwedCounts(rs: seq<nat>)
    ensures Owed(rs) == multiset(rs)[150] as int - multiset(rs)[226] as int
  {
    if rs != [] {
      OwedCounts(rs[..|rs| - 1]);
      assert rs == rs[..|rs| - 1] + [rs[|rs| - 1]];
    }
  }
}
