/**
 ConfigFile.cpp: the configuration parser reads one line ahead to find where a value ends, and the
 printer writes the entries back.  `ParseLines` says what a text means without any reading ahead.
 */
module ConfigSpec {
  import opened Strings

  datatype Syntax = Syntax(delim: char, comment: char, sentry: string)

  /** The syntax marks are no white space and do not overlap. */
  predicate Sane(x: Syntax) {
    && x.delim != x.comment && !IsSpace(x.delim) && !IsSpace(x.comment)
    && x.delim !in x.sentry && x.comment !in x.sentry
    && forall i :: 0 <= i < |x.sentry| ==> !IsSpace(x.sentry[i])
  }

  /** The marks a ConfigFile is read with unless the caller asks for others. */
  const DEFAULT_SYNTAX := Syntax('=', '#', "EndConfigFile")

  /** The line without its comment. */
  function Cut(x: Syntax, line: string): (r: string)
    ensures x.comment !in r && r <= line
  {
    line[..Index(line, x.comment)]
  }

  lemma CutAgain(x: Syntax, line: string)
    requires x.comment !in line
    ensures Cut(x, line) == line
  {
  }

  predicate Ends(x: Syntax, line: string) {
    x.sentry != "" && Contains(line, x.sentry)
  }

  predicate Continues(x: Syntax, line: string) {
    !Blank(line) && x.delim !in Cut(x, line) && !Ends(x, Cut(x, line))
  }

  function Extend(value: string, part: string): string {
    value + (if Blank(part) then "" else "\n") + part
  }

  /** The value that starts with `value` and takes up continuation lines, and the lines after it. */
  function Absorb(x: Syntax, lines: seq<string>, value: string): (r: (string, seq<string>))
    ensures |r.1| <= |lines|
  {
    if lines != [] && Continues(x, lines[0]) then Absorb(x, lines[1..], Extend(value, Cut(x, lines[0])))
    else (value, lines)
  }

  /** What the lines of a text add to the entries `m`. */
  function ParseLines(x: Syntax, lines: seq<string>, m: map<string, string>): map<string, string>
    decreases |lines|, 0
  {
    if lines == [] then m
    else
      var line := Cut(x, lines[0]);
      if Ends(x, line) then m
      else if x.delim in line then
        var d := Index(line, x.delim);
        ParseValue(x, lines[1..], line[..d], line[d + 1..], m)
      else ParseLines(x, lines[1..], m)
  }

  function ParseValue(x: Syntax, lines: seq<string>, key: string, value: string, m: map<string,
    string>): map<string, string>
    decreases |lines|, 1
  {
    var (v, rest) := Absorb(x, lines, value);
    ParseLines(x, rest, m[Trim(key) := Trim(v)])
  }

  /** The lines of a text; a last line without a newline is followed by what is left of it without its comment. */
  function SourceLines(x: Syntax, text: string): seq<string> {
    var i := Index(text, '\n');
    if text == "" then []
    else if i == |text| then [text, Cut(x, text)]
    else [text[..i]] + SourceLines(x, text[i + 1..])
  }

  function Parse(x: Syntax, text: string): map<string, string> {
    ParseLines(x, SourceLines(x, text), map[])
  }

  function Line(x: Syntax, key: string, value: string): string {
    key + " " + [x.delim] + " " + value
  }

  /** The text printed for the keys `order`. */
  function Render(x: Syntax, m: map<string, string>, order: seq<string>): string
    requires forall i :: 0 <= i < |order| ==> order[i] in m
  {
    if order == [] then "" else Line(x, order[0], m[order[0]]) + "\n" + Render(x, m, order[1..])
  }

  // ---------------------------------------------------------------- one line at a time

  lemma LineStep(x: Syntax, line: string, rest: seq<string>, m: map<string, string>)
    ensures var c := Cut(x, line); var d := Index(c, x.delim);
      ParseLines(x, [line] + rest, m) ==
        if Ends(x, c) then m
        else if d < |c| then ParseValue(x, rest, c[..d], c[d + 1..], m)
        else ParseLines(x, rest, m)
  {
    hide Contains, Blank, Trim, ParseValue, Absorb;
    assert ([line] + rest)[1..] == rest;
  }

  lemma ValueStep(x: Syntax, line: string, rest: seq<string>, key: string, value: string, m: map<string, string>)
    ensures ParseValue(x, [line] + rest, key, value, m) ==
      if Continues(x, line) then ParseValue(x, rest, key, Extend(value, Cut(x, line)), m)
      else ParseLines(x, [line] + rest, m[Trim(key) := Trim(value)])
  {
    hide Contains, Blank, Trim, ParseLines, Continues, Extend, Cut;
    assert ([line] + rest)[1..] == rest;
  }

  // ---------------------------------------------------------------- lines that mean nothing

  lemma NoLines(x: Syntax, key: string, value: string, m: map<string, string>)
    ensures ParseLines(x, [], m) == m
    ensures ParseValue(x, [], key, value, m) == m[Trim(key) := Trim(value)]
  {
    hide Trim, Cut, Continues, Ends, Extend;
    assert Absorb(x, [], value) == (value, []);
  }

  lemma IgnoredLine(x: Syntax, line: string, rest: seq<string>, m: map<string, string>)
    requires x.delim !in Cut(x, line) && !Ends(x, Cut(x, line))
    ensures ParseLines(x, [line] + rest, m) == ParseLines(x, rest, m)
  {
    assert ([line] + rest)[1..] == rest;
  }

  lemma BlankIgnored(x: Syntax, line: string)
    requires Sane(x) && Blank(line)
    ensures x.delim !in Cut(x, line) && !Ends(x, Cut(x, line))
  {
    if x.sentry != "" {
      OccursHead(Cut(x, line), x.sentry);
    }
  }

  lemma CutSame(x: Syntax, line: string, rest: seq<string>, m: map<string, string>)
    ensures ParseLines(x, [Cut(x, line)] + rest, m) == ParseLines(x, [line] + rest, m)
  {
    hide Contains, Blank, Trim, ParseValue;
    CutAgain(x, Cut(x, line));
    assert ([line] + rest)[1..] == rest == ([Cut(x, line)] + rest)[1..];
  }

  /** A second copy of a last line changes nothing unless the line continues a value. */
  lemma Doubled(x: Syntax, line: string, m: map<string, string>)
    ensures ParseLines(x, [line, Cut(x, line)], m) == ParseLines(x, [line], m)
  {
    hide Contains, Blank, Trim, ParseLines, ParseValue, Extend;
    var c := Cut(x, line);
    var d := Index(c, x.delim);
    CutAgain(x, c);
    assert [line, c] == [line] + [c] && [line] == [line] + [] && [c] == [c] + [];
    LineStep(x, line, [c], m);
    LineStep(x, line, [], m);
    LineStep(x, c, [], m);
    if d < |c| && !Ends(x, c) {
      var m' := m[Trim(c[..d]) := Trim(c[d + 1..])];
      ValueStep(x, c, [], c[..d], c[d + 1..], m);
      LineStep(x, c, [], m');
      NoLines(x, c[..d], c[d + 1..], m);
      NoLines(x, c[..d], c[d + 1..], m');
    }
  }
}

module ConfigParser {
  import opened Strings
  import opened ConfigSpec

  /** An input stream: what is unread, and its eof and fail bits. */
  datatype Stream = Stream(rest: string, eof: bool, fail: bool)

  /** std::getline into a string that holds `old`; a stream that is not good leaves the string as it is. */
  function GetLine(s: Stream, was: string): (Stream, string) {
    var i := Index(s.rest, '\n');
    if s.eof || s.fail then (s.(fail := true), was)
    else if i < |s.rest| then (s.(rest := s.rest[i + 1..]), s.rest[..i])
    else (Stream("", true, s.rest == ""), s.rest)
  }

  function Left(s: Stream): nat {
    if s.fail then 0 else if s.eof then 1 else |s.rest| + 2
  }

  function Unread(x: Syntax, s: Stream): seq<string> {
    if s.eof || s.fail then [] else SourceLines(x, s.rest)
  }

  lemma LeftDrops(s: Stream, was: string)
    requires !s.fail
    ensures Left(GetLine(s, was).0) < Left(s)
  {
  }

  /** The lines a value may still take up: at the end of file the next getline leaves the last one in place. */
  function Ahead(x: Syntax, s: Stream, nextline: string): seq<string> {
    if s.eof && !s.fail then [nextline] else Unread(x, s)
  }

  function Lookahead(nextline: string): seq<string> {
    if nextline == "" then [] else [nextline]
  }

  lemma LookaheadLine(x: Syntax, nextline: string, rest: seq<string>, m: map<string, string>)
    requires Sane(x)
    ensures ParseLines(x, Lookahead(nextline) + rest, m) == ParseLines(x, [nextline] + rest, m)
  {
    if nextline == "" {
      BlankIgnored(x, "");
      IgnoredLine(x, "", rest, m);
      assert [] + rest == rest;
    }
  }

  /** Reading a line from a stream at a point where no earlier line can be left in place. */
  lemma ReadLine(x: Syntax, s: Stream, m: map<string, string>)
    requires Sane(x) && !s.fail
    ensures var (s', line) := GetLine(s, "");
      ParseLines(x, Unread(x, s), m) == ParseLines(x, [line] + Unread(x, s'), m)
  {
    hide Contains, Trim, ParseLines, ParseValue, Ends, Cut, Index;
    var (s', line) := GetLine(s, "");
    BlankIgnored(x, "");
    IgnoredLine(x, "", [], m);
    if !s.eof && s'.eof && s.rest != "" {
      Doubled(x, line, m);
      assert [line] + [] == [line];
    }
  }

  /** What can be left in `nextline` while a value goes on: a line without comment, delimiter or sentry. */
  predicate Part(x: Syntax, line: string) {
    x.comment !in line && x.delim !in line && !Ends(x, line)
  }

  /** One turn of the inner loop: the line read either continues the value or is looked at again. */
  lemma ReadAhead(x: Syntax, s: Stream, nextline: string, key: string, value: string, m: map<string, string>)
    requires Sane(x) && !s.fail && Part(x, nextline)
    ensures var (s', line) := GetLine(s, nextline);
      ParseValue(x, Ahead(x, s, nextline), key, value, m) ==
        if Continues(x, line) then ParseValue(x, Ahead(x, s', Cut(x, line)), key, Extend(value, Cut(x, line)), m)
        else ParseLines(x, [line] + Unread(x, s'), m[Trim(key) := Trim(value)])
  {
    hide Contains, Trim, ParseValue, ParseLines, Extend;
    var (s', line) := GetLine(s, nextline);
    CutAgain(x, nextline);
    var rest := Ahead(x, s', Cut(x, line));
    ValueStep(x, line, rest, key, value, m);
    assert [line] + [] == [line] && [line] + [Cut(x, line)] == [line, Cut(x, line)];
    if !s.eof && s.rest == "" {
      BlankIgnored(x, "");
      IgnoredLine(x, "", [], m[Trim(key) := Trim(value)]);
      NoLines(x, key, value, m);
      NoLines(x, key, value, m[Trim(key) := Trim(value)]);
    } else if s'.eof && !s'.fail {
      Doubled(x, line, m[Trim(key) := Trim(value)]);
    }
  }

  lemma NothingAhead(x: Syntax, s: Stream, key: string, value: string, m: map<string, string>)
    requires Sane(x)
    ensures Part(x, "") && ParseValue(x, Ahead(x, s, ""), key, value, m) == ParseValue(x, Unread(x, s), key, value, m)
  {
    hide Contains, Trim, ParseValue, ParseLines, Extend;
    CutAgain(x, "");
    BlankIgnored(x, "");
    NoLines(x, key, value, m);
    NoLines(x, key, value, m[Trim(key) := Trim(value)]);
    IgnoredLine(x, "", [], m[Trim(key) := Trim(value)]);
    ValueStep(x, "", [], key, value, m);
    assert [""] + [] == [""];
  }

  class ConfigFile {
    const syntax: Syntax
    var contents: map<string, string>

    constructor (syntax: Syntax)
      ensures this.syntax == syntax && contents == map[]
    {
      this.syntax := syntax;
      contents := map[];
    }

    /** operator>> */
    method Load(text: string)
      requires Sane(syntax)
      modifies this
      ensures contents == ParseLines(syntax, SourceLines(syntax, text), old(contents))
    {
      hide Contains, Blank, Trim, ParseLines, ParseValue, SourceLines, GetLine;
      ghost var goal := ParseLines(syntax, SourceLines(syntax, text), contents);
      var s := Stream(text, false, false);
      var nextline := "";
      assert Lookahead(nextline) + Unread(syntax, s) == SourceLines(syntax, text);
      while !s.fail || nextline != ""
        invariant ParseLines(syntax, Lookahead(nextline) + Unread(syntax, s), contents) == goal
        decreases 2 * Left(s) + |Lookahead(nextline)|
      {
        var line := "";
        if nextline != "" {
          line := nextline;
          nextline := "";
        } else {
          ReadLine(syntax, s, contents);
          assert Lookahead("") + Unread(syntax, s) == Unread(syntax, s);
          var r := GetLine(s, line);
          LeftDrops(s, line);
          s, line := r.0, r.1;
        }
        LineStep(syntax, line, Unread(syntax, s), contents);
        assert ParseLines(syntax, [line] + Unread(syntax, s), contents) == goal;
        line := Cut(syntax, line);
        if Ends(syntax, line) {
          return;
        }
        if syntax.delim in line {
          var d := Index(line, syntax.delim);
          var key := line[..d];
          line := line[d + 1..];
          s, line, nextline := ReadValue(s, key, line);
          contents := contents[Trim(key) := Trim(line)];
        } else {
          assert Lookahead("") + Unread(syntax, s) == Unread(syntax, s);
        }
      }
      NoLines(syntax, "", "", contents);
    }

    /** operator<<; `order` is the order in which the map is walked */
    method Save(order: seq<string>) returns (text: string)
      requires forall i :: 0 <= i < |order| ==> order[i] in contents
      ensures text == Render(syntax, contents, order)
    {
      text := "";
      for i := 0 to |order|
        invariant text + Render(syntax, contents, order[i..]) == Render(syntax, contents, order)
      {
        hide Line;
        assert order[i..][1..] == order[i + 1..];
        text := text + (Line(syntax, order[i], contents[order[i]]) + "\n");
      }
      assert order[|order|..] == [] && text + "" == text;
    }

    /** The loop that looks for the end of the value on the lines that follow. */
    method ReadValue(s0: Stream, key: string, value: string) returns (s: Stream, line: string, nextline: string)
      requires Sane(syntax)
      ensures Left(s) <= Left(s0) && (nextline != "" ==> Left(s) < Left(s0))
      ensures ParseValue(syntax, Unread(syntax, s0), key, value, contents)
           == ParseLines(syntax, Lookahead(nextline) + Unread(syntax, s), contents[Trim(key) := Trim(line)])
    {
      hide Contains, Blank, Trim, ParseValue, ParseLines, SourceLines, GetLine;
      s, line, nextline := s0, value, "";
      var terminate := false;
      ghost var goal := ParseValue(syntax, Unread(syntax, s), key, value, contents);
      NothingAhead(syntax, s, key, value, contents);
      while !terminate && !s.fail
        invariant Left(s) <= Left(s0) && (nextline != "" ==> Left(s) < Left(s0))
        invariant !terminate ==>
          Part(syntax, nextline) && ParseValue(syntax, Ahead(syntax, s, nextline), key, line, contents) == goal
        invariant terminate ==>
          ParseLines(syntax, [nextline] + Unread(syntax, s), contents[Trim(key) := Trim(line)]) == goal
        decreases Left(s), !terminate
      {
        ReadAhead(syntax, s, nextline, key, line, contents);
        LeftDrops(s, nextline);
        var r := GetLine(s, nextline);
        s, nextline := r.0, r.1;
        terminate := true;
        TrimBlank(nextline);
        if Trim(nextline) != "" {
          CutSame(syntax, nextline, Unread(syntax, s), contents[Trim(key) := Trim(line)]);
          nextline := Cut(syntax, nextline);
          if syntax.delim !in nextline && !Ends(syntax, nextline) {
            TrimBlank(nextline);
            ghost var longer := Extend(line, nextline);
            if Trim(nextline) != "" {
              line := line + "\n";
            }
            line := line + nextline;
            assert line == longer;
            terminate := false;
          }
        }
      }
      if !terminate {
        CutAgain(syntax, nextline);
        IgnoredLine(syntax, nextline, [], contents[Trim(key) := Trim(line)]);
        NoLines(syntax, key, line, contents);
        NoLines(syntax, key, line, contents[Trim(key) := Trim(line)]);
      }
      LookaheadLine(syntax, nextline, Unread(syntax, s), contents[Trim(key) := Trim(line)]);
    }
  }
}
