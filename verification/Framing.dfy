/** Command lines out of the control stream: finite_state_machine.cpp:134-240 and the buffer of session.h. */
module Framing {
  import opened Types
  import opened CStrings

  const EOL := ['\r', '\n']

  /** What one READ task comes to.  A null pointer handed to strncpy ends the process. */
  datatype Outcome = NullPointer | Incomplete | Executed(line: string)

  /** strstr( s, "\r\n" ), with the length of the string for NULL */
  function FindCrlf(s: string): (k: nat)
    ensures k == |s| || (k + 2 <= |s| && s[k] == '\r' && s[k + 1] == '\n')
    ensures forall j :: 0 <= j < k && j + 1 < |s| ==> s[j] != '\r' || s[j + 1] != '\n'
  {
    if |s| < 2 then |s|
    else if s[0] == '\r' && s[1] == '\n' then 0
    else
      var k := FindCrlf(s[1..]);
      assert forall j :: 1 <= j < k + 1 && j + 1 < |s| ==> s[j] == s[1..][j - 1] && s[j + 1] == s[1..][j];
      1 + k
  }

  /** What is left in recv_command after a READ that made it `text`, and the command that is executed. */
  function Framed(text: string): (string, Outcome) {
    var deal := StrTok(text, EOL);
    if |deal| == |text| then (text, NullPointer)
    else if |deal| + 2 > |text| then (text, Incomplete)
    else if |deal| + 2 == |text| then ("", Executed(deal))
    else if FindCrlf(text) == |text| then (text, NullPointer)
    else (text[FindCrlf(text) + 2..], Executed(deal))
  }

  /** recv_command of session.h */
  class CommandBuffer {
    const recv: array<char>
    var len: nat

    ghost predicate Valid()
      reads this, recv
    {
      recv.Length == COMMANDSIZE && Ended(recv[..]) && len == StrLen(recv[..])
    }

    ghost function Text(): string
      reads this, recv
    {
      CString(recv[..])
    }

    constructor ()
      ensures Valid() && Text() == "" && fresh(recv)
    {
      recv := new char[COMMANDSIZE](_ => '\0');
      len := 0;
      new;
      StrLenIs(recv[..], 0);
    }

    /** cat_recv_command */
    method Cat(buf: string)
      requires Valid() && len + |buf| < COMMANDSIZE && '\0' !in buf
      modifies this`len, recv
      ensures Valid() && Text() == old(Text()) + buf
    {
      Append(recv, buf);
      len := StrLen(recv[..]);
    }

    /** reset_recv_command and set_recv_command: the first `n` characters are moved out in place */
    method Drop(n: nat)
      requires Valid() && n <= len
      modifies this`len, recv
      ensures Valid() && Text() == old(Text())[n..]
    {
      ghost var text := Text();
      assert |text| == len && forall j :: 0 <= j < len ==> text[j] == recv[j];
      for i := 0 to len - n
        invariant len == old(len)
        invariant forall j :: 0 <= j < i ==> recv[j] == text[n + j]
        invariant forall j :: i <= j < len ==> recv[j] == text[j]
      {
        recv[i] := recv[n + i];
      }
      recv[len - n] := '\0';
      len := len - n;
      assert forall j :: 0 <= j < |text| ==> text[j] != '\0';
      StrLenIs(recv[..], len);
      assert recv[..][..len] == text[n..];
    }

    /** SESSION_TASK_READ: cat_recv_command, then the first half of run_fsm_command */
    method Read(fragment: string) returns (o: Outcome)
      requires Valid() && len + |fragment| < COMMANDSIZE && '\0' !in fragment
      modifies this`len, recv
      ensures Valid() && (Text(), o) == Framed(old(Text()) + fragment)
    {
      Cat(fragment);
      var text := CString(recv[..]);
      var deal := StrTok(text, EOL);
      if len == |deal| {
        o := NullPointer;
      } else if |deal| + 2 > len {
        o := Incomplete;
      } else if |deal| + 2 == len {
        Drop(len);
        o := Executed(deal);
      } else {
        var left := FindCrlf(text);
        if left == len {
          o := NullPointer;
        } else {
          Drop(left + 2);
          o := Executed(deal);
        }
      }
    }
  }

  // ---------------------------------------------------------------- conservation

  /** A command line as RFC 959 has it: not empty, without CR, LF or NUL. */
  predicate LineOk(line: string) {
    line != "" && '\r' !in line && '\n' !in line && '\0' !in line
  }

  function Stream(lines: seq<string>): string {
    if lines == [] then "" else lines[0] + "\r\n" + Stream(lines[1..])
  }

  lemma {:induction false} StreamAppend(a: seq<string>, b: seq<string>)
    ensures Stream(a + b) == Stream(a) + Stream(b)
  {
    if a == [] {
      assert a + b == b;
    } else {
      StreamAppend(a[1..], b);
      HeadTail(a, b);
      Assoc(a[0] + "\r\n", Stream(a[1..]), Stream(b));
    }
  }

  lemma NoStream()
    ensures Stream([]) == ""
  {
  }

  lemma StreamHead(lines: seq<string>)
    requires lines != []
    ensures Stream(lines) == lines[0] + "\r\n" + Stream(lines[1..])
    ensures Stream([lines[0]]) == lines[0] + "\r\n"
  {
  }

  /** One READ with the buffer at the start of a stream of lines, in all four cases. */
  lemma FramedLine(text: string, line: string, rest: string)
    requires LineOk(line) && text <= line + "\r\n" + rest
    ensures Framed(text) ==
      if |text| <= |line| then (text, NullPointer)
      else if |text| == |line| + 1 then (text, Incomplete)
      else (text[|line| + 2..], Executed(line))
  {
    var all := line + "\r\n" + rest;
    assert forall j :: 0 <= j < |text| ==> text[j] == all[j];
    assert forall j :: 0 <= j < |line| ==> all[j] == line[j];
    assert all[|line|] == '\r' && all[|line| + 1] == '\n';
    assert text != "" ==> text[0] !in EOL;
    assert Span(text, 0, EOL, false) == 0;
    if |text| <= |line| {
      assert Span(text, 0, EOL, true) == |text|;
    } else {
      assert Span(text, 0, EOL, true) == |line|;
      assert StrTok(text, EOL) == line;
      if |text| > |line| + 1 {
        assert FindCrlf(text) == |line|;
        assert |text| == |line| + 2 ==> text[|line| + 2..] == "";
      }
    }
  }

  predicate AllEol(s: string) {
    forall i :: 0 <= i < |s| ==> s[i] in EOL
  }

  predicate NoEol(s: string) {
    forall i :: 0 <= i < |s| ==> s[i] !in EOL
  }

  /** A text is line ends, then a token, then nothing or what starts with a line end again. */
  predicate Parts(lead: string, token: string, rest: string) {
    AllEol(lead) && NoEol(token) && (token == "" ==> rest == "") && (rest != "" ==> rest[0] in EOL)
  }

  lemma HasParts(text: string) returns (lead: string, token: string, rest: string)
    ensures text == lead + token + rest && Parts(lead, token, rest)
  {
    var i := Span(text, 0, EOL, false);
    var j := Span(text, i, EOL, true);
    lead, token, rest := text[..i], text[i..j], text[j..];
    assert text == lead + token + rest;
  }

  /**
   One READ of any text at all: what is executed are the line ends in front and the token; what is dropped goes
   up to the first CR LF, wherever that is.
   */
  lemma FramedText(lead: string, token: string, rest: string)
    requires Parts(lead, token, rest)
    ensures var text := lead + token + rest; var k := FindCrlf(text);
      Framed(text) ==
        if rest == "" || (|rest| > 2 && k == |text|) then (text, NullPointer)
        else if |rest| == 1 then (text, Incomplete)
        else (if |rest| == 2 then "" else text[k + 2..], Executed(lead + token))
  {
    hide FindCrlf, StrTok, Parts;
    TokenOf(lead, token, rest);
  }

  lemma TokenOf(lead: string, token: string, rest: string)
    requires Parts(lead, token, rest)
    ensures StrTok(lead + token + rest, EOL) == lead + token
  {
    hide Span;
    var text := lead + token + rest;
    assert forall i :: 0 <= i < |lead| ==> text[i] == lead[i];
    assert forall i :: |lead| <= i < |lead| + |token| ==> text[i] == token[i - |lead|];
    assert rest != "" ==> text[|lead| + |token|] == rest[0];
    assert token != "" ==> text[|lead|] == token[0];
    assert Span(text, 0, EOL, false) == |lead|;
    assert Span(text, |lead|, EOL, true) == |lead| + |token|;
    assert text[..|lead| + |token|] == lead + token;
  }

  /** So a blank line in front of a command that more follows is executed with it and the command once more. */
  lemma BlankLineFirst(line: string, more: string)
    requires LineOk(line) && more != ""
    ensures var again := line + "\r\n" + more;
      Framed("\r\n" + again) == (again, Executed("\r\n" + line))
  {
    hide StrTok;
    var rest := "\r\n" + more;
    FramedText("\r\n", line, rest);
    var text := "\r\n" + line + rest;
    assert text == "\r\n" + (line + "\r\n" + more);
    assert text[0] == '\r' && text[1] == '\n';
    assert FindCrlf(text) == 0;
  }

  /** The shortest such READ of a command: the first letters of USER. */
  lemma UnendedExample()
    ensures Framed("US") == ("US", NullPointer)
  {
    assert Span("US", 0, EOL, false) == 0;
    assert Span("US", 0, EOL, true) == 2;
    assert "US"[..2] == "US";
  }

  /** The session after READs of these fragments: the lines executed, what is left, and whether it still runs. */
  datatype Reading = Reading(done: seq<string>, recv: string, alive: bool)

  function AfterReads(fragments: seq<string>): Reading {
    if fragments == [] then Reading([], "", true)
    else
      var r := AfterReads(fragments[..|fragments| - 1]);
      if !r.alive then r
      else
        var (left, o) := Framed(r.recv + fragments[|fragments| - 1]);
        match o
        case NullPointer => Reading(r.done, left, false)
        case Incomplete => Reading(r.done, left, true)
        case Executed(line) => Reading(r.done + [line], left, true)
  }

  function Received(fragments: seq<string>): string {
    if fragments == [] then "" else Received(fragments[..|fragments| - 1]) + fragments[|fragments| - 1]
  }

  /**
   Whatever the fragments of a stream of lines are: the executed lines are the first ones of the stream, in
   order, and with what is in the buffer they make up the bytes received; no more than one per READ.
   */
  lemma {:induction false} FramingConserves(lines: seq<string>, fragments: seq<string>)
    requires forall i :: 0 <= i < |lines| ==> LineOk(lines[i])
    requires Received(fragments) <= Stream(lines)
    ensures var r := AfterReads(fragments);
      && |r.done| <= |fragments| && r.done <= lines
      && (r.alive ==> Stream(r.done) + r.recv == Received(fragments))
  {
    hide Framed, Stream, LineOk;
    if fragments == [] {
      NoStream();
    } else {
      var before := fragments[..|fragments| - 1];
      var last := fragments[|fragments| - 1];
      FramingConserves(lines, before);
      var r := AfterReads(before);
      assert Received(fragments) == Received(before) + last;
      if r.alive {
        ReadStep(lines, r, last);
      }
    }
  }

  /** One more READ: it fails exactly when it leaves the buffer without a line end. */
  lemma ReadStep(lines: seq<string>, r: Reading, last: string)
    requires forall i :: 0 <= i < |lines| ==> LineOk(lines[i])
    requires r.done <= lines && Stream(r.done) + r.recv + last <= Stream(lines)
    ensures var text := r.recv + last; var (left, o) := Framed(text);
      && (o == NullPointer <==> '\r' !in text)
      && (o.Executed? ==> r.done + [o.line] <= lines && Stream(r.done + [o.line]) + left == Stream(r.done) + text)
      && (!o.Executed? ==> left == text)
  {
    hide Framed, Stream, LineOk;
    var text := r.recv + last;
    var sent := Stream(r.done);
    var todo := lines[|r.done|..];
    assert lines == r.done + todo;
    StreamAppend(r.done, todo);
    Assoc(sent, r.recv, last);
    PrefixAfter(sent, text, Stream(todo));
    ReadLine(todo, text);
    var (left, o) := Framed(text);
    if o.Executed? {
      StreamAppend(r.done, [o.line]);
      StreamHead(todo);
      assert lines[..|r.done| + 1] == r.done + [o.line];
      Assoc(sent, o.line + "\r\n", left);
    }
  }

  /** A READ at the start of what is still to come. */
  lemma ReadLine(todo: seq<string>, text: string)
    requires forall i :: 0 <= i < |todo| ==> LineOk(todo[i])
    requires text <= Stream(todo)
    ensures var (left, o) := Framed(text);
      && (o == NullPointer <==> '\r' !in text)
      && (o.Executed? ==> todo != [] && o.line == todo[0] && text == o.line + "\r\n" + left)
      && (!o.Executed? ==> left == text)
  {
    hide Framed, Stream;
    if todo == [] {
      NoStream();
      FramedNothing();
    } else {
      var line := todo[0];
      var rest := Stream(todo[1..]);
      StreamHead(todo);
      FramedLine(text, line, rest);
      HasCr(text, line, rest);
      if |text| >= |line| + 2 {
        assert text[..|line| + 2] == line + "\r\n";
      }
    }
  }

  lemma PrefixAfter(a: string, b: string, c: string)
    requires a + b <= a + c
    ensures b <= c
  {
    assert forall k :: 0 <= k < |b| ==> b[k] == (a + b)[|a| + k] == (a + c)[|a| + k] == c[k];
  }

  lemma FramedNothing()
    ensures Framed("") == ("", NullPointer)
  {
  }

  lemma HasCr(text: string, line: string, rest: string)
    requires LineOk(line) && text <= line + "\r\n" + rest
    ensures '\r' in text <==> |text| > |line|
  {
    var all := line + "\r\n" + rest;
    assert forall j :: 0 <= j < |text| ==> text[j] == all[j];
    assert forall j :: 0 <= j < |line| ==> all[j] == line[j];
    assert all[|line|] == '\r';
  }
}
