/** What the parser and the printer of ConfigFile.cpp promise together. */
module ConfigLaws {
  import opened Types
  import opened Strings
  import opened ConfigSpec

  // ---------------------------------------------------------------- what can be printed and read back

  /** Neither a comment nor the sentry starts in the text. */
  predicate Plain(x: Syntax, s: string) {
    x.comment !in s && !Ends(x, s)
  }

  /** No delimiter after the first line. */
  predicate DelimFirst(x: Syntax, s: string) {
    forall i, j :: 0 <= i < j < |s| && s[i] == '\n' ==> s[j] != x.delim
  }

  /** Every line but the first and the last has something on it. */
  predicate NoBlankLine(s: string) {
    forall i, j :: 0 <= i < j < |s| && s[i] == '\n' && s[j] == '\n' ==> !AllSpace(s, i, j)
  }

  predicate KeyOk(x: Syntax, k: string) {
    Plain(x, k) && x.delim !in k && '\n' !in k && Trimmed(k)
  }

  predicate ValueOk(x: Syntax, v: string) {
    Plain(x, v) && DelimFirst(x, v) && NoBlankLine(v) && Trimmed(v)
  }

  predicate Printable(x: Syntax, m: map<string, string>) {
    forall k :: k in m ==> KeyOk(x, k) && ValueOk(x, m[k])
  }

  // ---------------------------------------------------------------- every parsed map is printable

  /** A value before it is trimmed: something stands on the last line unless it is the first. */
  predicate Loose(x: Syntax, s: string) {
    && Plain(x, s) && DelimFirst(x, s) && NoBlankLine(s)
    && forall i :: 0 <= i < |s| && s[i] == '\n' ==> !AllSpace(s, i, |s|)
  }

  lemma PlainPart(x: Syntax, s: string, lo: nat, hi: nat)
    requires lo <= hi <= |s| && Plain(x, s)
    ensures Plain(x, s[lo..hi])
  {
    if Ends(x, s[lo..hi]) {
      ContainsPart(s, x.sentry, lo, hi);
    }
  }

  lemma TrimmedIsOk(x: Syntax, s: string)
    requires Loose(x, s)
    ensures ValueOk(x, Trim(s))
  {
    hide Ends, Trim;
    var lo, hi := TrimSplits(s);
    var v := Trim(s);
    PlainPart(x, s, lo, hi);
    assert forall i :: 0 <= i < |v| ==> v[i] == s[lo + i];
    forall i, j | 0 <= i < j < |v| && v[i] == '\n' && v[j] == '\n' ensures !AllSpace(v, i, j) {
      assert !AllSpace(s, lo + i, lo + j);
      var k :| lo + i <= k < lo + j && !IsSpace(s[k]);
      assert v[k - lo] == s[k];
    }
    assert DelimFirst(x, v);
    assert Trimmed(v);
  }

  lemma ExtendLoose(x: Syntax, s: string, part: string)
    requires Sane(x) && Loose(x, s) && Plain(x, part) && x.delim !in part && '\n' !in part
    ensures Loose(x, Extend(s, part))
  {
    hide Contains;
    var mid := if Blank(part) then "" else "\n";
    var r := Extend(s, part);
    var n := |s| + |mid|;
    assert forall k :: 0 <= k < |s| ==> r[k] == s[k];
    assert forall k :: 0 <= k < |part| ==> r[n + k] == part[k];
    ExtendPlain(x, s, part);
    assert x.delim != '\n';
    assert DelimFirst(x, r);
    forall i, hi | 0 <= i < |r| && r[i] == '\n' && (hi == |r| || (i < hi < |r| && r[hi] == '\n'))
      ensures !AllSpace(r, i, hi)
    {
      if i == |s| {
        var k :| 0 <= k < |part| && !IsSpace(part[k]);
        assert !IsSpace(r[n + k]);
      } else {
        var end := if hi < |s| then hi else |s|;
        assert !AllSpace(s, i, end);
        var k :| i <= k < end && !IsSpace(s[k]);
        assert r[k] == s[k];
      }
    }
  }

  lemma ExtendPlain(x: Syntax, s: string, part: string)
    requires Sane(x) && Plain(x, s) && Plain(x, part)
    ensures Plain(x, Extend(s, part))
  {
    assert Blank(part) ==> Extend(s, part) == s + part + "";
    assert part == "" ==> Extend(s, part) == s;
    if Ends(x, Extend(s, part)) {
      if !Blank(part) {
        ContainsAround(s, "\n", part, x.sentry);
      } else if part != "" {
        ContainsAround(s, part, "", x.sentry);
      }
    }
  }

  lemma {:induction false} AbsorbRest(x: Syntax, lines: seq<string>, value: string)
    ensures var rest := Absorb(x, lines, value).1; rest == lines[|lines| - |rest|..]
  {
    hide Continues, Cut, Extend;
    if lines != [] && Continues(x, lines[0]) {
      AbsorbRest(x, lines[1..], Extend(value, Cut(x, lines[0])));
    }
  }

  lemma {:induction false} AbsorbLoose(x: Syntax, lines: seq<string>, value: string)
    requires Sane(x) && Loose(x, value) && forall i :: 0 <= i < |lines| ==> '\n' !in lines[i]
    ensures Loose(x, Absorb(x, lines, value).0)
  {
    hide Loose, Contains, Sane, Extend, Blank;
    if lines != [] && Continues(x, lines[0]) {
      ExtendLoose(x, value, Cut(x, lines[0]));
      AbsorbLoose(x, lines[1..], Extend(value, Cut(x, lines[0])));
    }
  }

  /** Whatever the lines are, the entries they make can be printed and read back. */
  lemma {:induction false} ParsedIsPrintable(x: Syntax, lines: seq<string>, m: map<string, string>)
    requires Sane(x) && Printable(x, m) && forall i :: 0 <= i < |lines| ==> '\n' !in lines[i]
    ensures Printable(x, ParseLines(x, lines, m))
    decreases |lines|
  {
    hide Sane, Contains, Absorb, Trim, Trimmed, ValueOk, KeyOk;
    if lines != [] {
      var line := Cut(x, lines[0]);
      var d := Index(line, x.delim);
      if Ends(x, line) {
      } else if x.delim in line {
        var (v, rest) := Absorb(x, lines[1..], line[d + 1..]);
        AbsorbRest(x, lines[1..], line[d + 1..]);
        HeadIsOk(x, line);
        AbsorbLoose(x, lines[1..], line[d + 1..]);
        TrimmedIsOk(x, v);
        ParsedIsPrintable(x, rest, m[Trim(line[..d]) := Trim(v)]);
      } else {
        ParsedIsPrintable(x, lines[1..], m);
      }
    }
  }

  lemma HeadIsOk(x: Syntax, line: string)
    requires Plain(x, line) && x.delim in line && '\n' !in line
    ensures var d := Index(line, x.delim); KeyOk(x, Trim(line[..d])) && Loose(x, line[d + 1..])
  {
    hide Ends, Trim, KeyOk, Loose;
    var d := Index(line, x.delim);
    KeyPart(x, line, d);
    ValuePart(x, line, d + 1);
  }

  lemma KeyPart(x: Syntax, line: string, d: nat)
    requires Plain(x, line) && '\n' !in line && d <= |line| && x.delim !in line[..d]
    ensures KeyOk(x, Trim(line[..d]))
  {
    hide Ends, Trim, IsSpace;
    var head := line[..d];
    var lo, hi := TrimSplits(head);
    var key := Trim(head);
    assert forall k :: 0 <= k < |key| ==> key[k] == head[lo + k];
    assert head == line[0..d];
    PlainPart(x, line, 0, d);
    PlainPart(x, head, lo, hi);
  }

  lemma ValuePart(x: Syntax, line: string, d: nat)
    requires Plain(x, line) && '\n' !in line && d <= |line|
    ensures Loose(x, line[d..])
  {
    hide Ends, IsSpace;
    assert line[d..] == line[d..|line|];
    PlainPart(x, line, d, |line|);
  }

  lemma {:induction false} SourceLinesSplit(x: Syntax, text: string)
    ensures forall i :: 0 <= i < |SourceLines(x, text)| ==> '\n' !in SourceLines(x, text)[i]
  {
    var i := Index(text, '\n');
    if i < |text| {
      SourceLinesSplit(x, text[i + 1..]);
    }
  }

  // ---------------------------------------------------------------- round trip

  /** A value cut at its newlines. */
  function Pieces(v: string): (r: seq<string>)
    ensures r != []
  {
    var i := Index(v, '\n');
    if i == |v| then [v] else [v[..i]] + Pieces(v[i + 1..])
  }

  lemma PiecesStep(v: string)
    ensures var i := Index(v, '\n');
      Pieces(v) == if i == |v| then [v[..i]] else [v[..i]] + Pieces(v[i + 1..])
  {
    hide Index;
    assert v[..|v|] == v;
  }

  lemma SourceStep(x: Syntax, line: string, text: string)
    requires '\n' !in line
    ensures SourceLines(x, line + "\n" + text) == [line] + SourceLines(x, text)
  {
    hide Cut, Index;
    var t := line + "\n" + text;
    assert t[|line|] == '\n' && forall k :: 0 <= k < |line| ==> t[k] == line[k];
    assert Index(t, '\n') == |line| && t[..|line|] == line && t[|line| + 1..] == text;
  }

  lemma {:induction false} PiecesThenText(x: Syntax, v: string, text: string)
    ensures SourceLines(x, v + "\n" + text) == Pieces(v) + SourceLines(x, text)
  {
    hide SourceLines, Pieces, Index;
    var i := Index(v, '\n');
    PiecesStep(v);
    if i == |v| {
      assert v[..i] == v;
      SourceStep(x, v, text);
    } else {
      var w := v[i + 1..];
      PiecesThenText(x, w, text);
      SourceStep(x, v[..i], w + "\n" + text);
      assert v == v[..i] + "\n" + w;
      Assoc(v[..i] + "\n", w, "\n");
      Assoc(v[..i] + "\n", w + "\n", text);
    }
  }

  /** A part of a value after a newline: it takes up its own lines again and no more. */
  predicate Follows(x: Syntax, v: string) {
    && Plain(x, v) && x.delim !in v && NoBlankLine(v)
    && v != "" && !IsSpace(v[|v| - 1])
    && forall i :: 0 <= i < |v| && v[i] == '\n' ==> !AllSpace(v, 0, i)
  }

  lemma FirstPiece(x: Syntax, v: string)
    requires Follows(x, v)
    ensures var i := Index(v, '\n');
      Continues(x, v[..i]) && Cut(x, v[..i]) == v[..i] && !Blank(v[..i]) && (i < |v| ==> Follows(x, v[i + 1..]))
  {
    hide Ends;
    var i := Index(v, '\n');
    var piece := v[..i];
    PlainPart(x, v, 0, i);
    CutAgain(x, piece);
    if i < |v| {
      var k :| 0 <= k < i && !IsSpace(v[k]);
      assert piece[k] == v[k];
      FollowsTail(x, v, i);
    } else {
      assert piece == v;
    }
  }

  lemma Stops(x: Syntax, lines: seq<string>, value: string)
    requires lines == [] || !Continues(x, lines[0])
    ensures Absorb(x, lines, value) == (value, lines)
  {
  }

  lemma AbsorbOne(x: Syntax, line: string, rest: seq<string>, value: string)
    requires Continues(x, line)
    ensures Absorb(x, [line] + rest, value) == Absorb(x, rest, Extend(value, Cut(x, line)))
  {
    hide Continues, Cut, Extend;
    assert ([line] + rest)[1..] == rest;
  }

  lemma {:induction false} AbsorbPieces(x: Syntax, v: string, rest: seq<string>, value: string)
    requires Follows(x, v) && (rest == [] || !Continues(x, rest[0]))
    ensures Absorb(x, Pieces(v) + rest, value) == (value + "\n" + v, rest)
  {
    hide Follows, Continues, Cut, Blank, Absorb, Pieces;
    FirstPiece(x, v);
    PiecesStep(v);
    var i := Index(v, '\n');
    var longer := value + "\n" + v[..i];
    assert Extend(value, v[..i]) == longer;
    if i == |v| {
      AbsorbOne(x, v[..i], rest, value);
      Stops(x, rest, longer);
      assert v[..i] == v;
    } else {
      var w := v[i + 1..];
      AbsorbPieces(x, w, rest, longer);
      AbsorbOne(x, v[..i], Pieces(w) + rest, value);
      assert Pieces(v) + rest == [v[..i]] + (Pieces(w) + rest);
      assert v == v[..i] + ("\n" + w);
      assert longer + "\n" + w == value + "\n" + v;
    }
  }

  lemma FollowsTail(x: Syntax, v: string, i: nat)
    requires i < |v| && v[i] == '\n' && Plain(x, v) && DelimFirst(x, v) && NoBlankLine(v) && v != ""
      && !IsSpace(v[|v| - 1])
    ensures Follows(x, v[i + 1..])
  {
    hide Ends;
    var w := v[i + 1..];
    assert v[i + 1..|v|] == w;
    PlainPart(x, v, i + 1, |v|);
    assert forall k :: 0 <= k < |w| ==> w[k] == v[i + 1 + k];
    forall a, b | -1 <= a < b < |w| && (a == -1 || w[a] == '\n') && w[b] == '\n'
      ensures !AllSpace(w, a, b)
    {
      assert !AllSpace(v, i + 1 + a, i + 1 + b);
      var k :| i + 1 + a <= k < i + 1 + b && !IsSpace(v[k]);
      assert !IsSpace(w[k - i - 1]);
    }
  }

  /** A printed entry up to its first newline: `first` is the first line of the value. */
  lemma HeadLine(x: Syntax, k: string, first: string)
    requires Sane(x) && KeyOk(x, k) && Plain(x, first)
    ensures var h := Line(x, k, first);
      Plain(x, h) && Cut(x, h) == h && |h| == |k| + 3 + |first|
      && Index(h, x.delim) == |k| + 1 && h[..|k| + 1] == k + " " && h[|k| + 2..] == " " + first
    ensures !Continues(x, Line(x, k, first))
  {
    hide Contains;
    var h := Line(x, k, first);
    assert h[|k|] == ' ' && h[|k| + 1] == x.delim && forall i :: 0 <= i < |k| ==> h[i] == k[i];
    CutAgain(x, h);
    if Ends(x, h) {
      assert h == k + (" " + [x.delim] + " ") + first;
      ContainsAround(k, " " + [x.delim] + " ", first, x.sentry);
    }
  }

  lemma AbsorbValue(x: Syntax, v: string, rest: seq<string>)
    requires ValueOk(x, v) && (rest == [] || !Continues(x, rest[0]))
    ensures var i := Index(v, '\n'); var more := if i == |v| then [] else Pieces(v[i + 1..]);
      Absorb(x, more + rest, " " + v[..i]) == (" " + v, rest)
  {
    hide Ends, Contains, NoBlankLine, Absorb, Continues, Plain, Pieces;
    var i := Index(v, '\n');
    if i < |v| {
      FollowsTail(x, v, i);
      AbsorbPieces(x, v[i + 1..], rest, " " + v[..i]);
      assert v == v[..i] + "\n" + v[i + 1..];
      assert " " + v[..i] + "\n" + v[i + 1..] == " " + v;
    } else {
      assert [] + rest == rest && v[..i] == v;
      Stops(x, rest, " " + v);
    }
  }

  lemma IndexAfter(a: string, b: string, c: char)
    requires c !in a
    ensures Index(a + b, c) == |a| + Index(b, c)
  {
    var t := a + b;
    assert forall j :: 0 <= j < |a| ==> t[j] == a[j];
    assert forall j :: 0 <= j < |b| ==> t[|a| + j] == b[j];
  }

  lemma CutAfter(a: string, b: string, i: nat)
    requires i <= |b|
    ensures (a + b)[..|a| + i] == a + b[..i]
    ensures i < |b| ==> (a + b)[|a| + i + 1..] == b[i + 1..]
  {
  }

  lemma NewlineIn(x: Syntax, k: string, v: string)
    requires '\n' !in k && x.delim != '\n'
    ensures var t := Line(x, k, v); var i := Index(v, '\n'); var n := |k| + 3;
      Index(t, '\n') == n + i && |t| == n + |v| && t[..n + i] == Line(x, k, v[..i])
      && (i < |v| ==> t[n + i + 1..] == v[i + 1..])
  {
    hide Index;
    var head := k + " " + [x.delim] + " ";
    IndexAfter(head, v, '\n');
    CutAfter(head, v, Index(v, '\n'));
  }

  /** The lines of a printed entry: its head line and the rest of its value. */
  lemma EntryLines(x: Syntax, k: string, v: string, text: string)
    requires '\n' !in k && x.delim != '\n'
    ensures var i := Index(v, '\n'); var more := if i == |v| then [] else Pieces(v[i + 1..]);
      SourceLines(x, Line(x, k, v) + "\n" + text) == [Line(x, k, v[..i])] + (more + SourceLines(x, text))
  {
    hide SourceLines, Pieces, Line, Index;
    NewlineIn(x, k, v);
    PiecesThenText(x, Line(x, k, v), text);
    PiecesStep(Line(x, k, v));
  }

  /** Reading a printed entry enters exactly that entry, and goes on with what follows it. */
  lemma EntryStep(x: Syntax, k: string, v: string, text: string, m: map<string, string>)
    requires Sane(x) && KeyOk(x, k) && ValueOk(x, v)
    requires SourceLines(x, text) == [] || !Continues(x, SourceLines(x, text)[0])
    ensures var t := Line(x, k, v) + "\n" + text;
      ParseLines(x, SourceLines(x, t), m) == ParseLines(x, SourceLines(x, text), m[k := v])
    ensures !Continues(x, SourceLines(x, Line(x, k, v) + "\n" + text)[0])
  {
    hide Ends, Contains, NoBlankLine, DelimFirst, Trim, Absorb, Index, Cut, Continues, SourceLines, ParseLines,
      Line, Pieces;
    var rest := SourceLines(x, text);
    var i := Index(v, '\n');
    var more := if i == |v| then [] else Pieces(v[i + 1..]);
    PlainPart(x, v, 0, i);
    HeadLine(x, k, v[..i]);
    EntryLines(x, k, v, text);
    LineStep(x, Line(x, k, v[..i]), more + rest, m);
    AbsorbValue(x, v, rest);
    TrimAround("", k, " ");
    TrimAround(" ", v, "");
    assert "" + k + " " == k + " " && " " + v + "" == " " + v;
  }

  lemma HeadEntry(m: map<string, string>, order: seq<string>, was: map<string, string>)
    requires order != [] && forall i :: 0 <= i < |order| ==> order[i] in m
    ensures was[order[0] := m[order[0]]] + (map k | k in order[1..] :: m[k]) == was + map k | k in order :: m[k]
  {
    assert forall k :: k in order <==> k == order[0] || k in order[1..];
  }

  /** Reading what was printed enters the printed entries over those that are there already. */
  lemma {:induction false} ReadBack(x: Syntax, m: map<string, string>, order: seq<string>, was: map<string, string>)
    requires Sane(x) && Printable(x, m) && forall i :: 0 <= i < |order| ==> order[i] in m
    ensures ParseLines(x, SourceLines(x, Render(x, m, order)), was) == was + map k | k in order :: m[k]
    ensures var ls := SourceLines(x, Render(x, m, order)); ls == [] || !Continues(x, ls[0])
  {
    hide KeyOk, ValueOk, Sane, Continues, Line, Trim, Contains, Absorb, ParseLines, Ends;
    if order == [] {
      NoLines(x, "", "", was);
    } else {
      var k := order[0];
      ReadBack(x, m, order[1..], was);
      ReadBack(x, m, order[1..], was[k := m[k]]);
      EntryStep(x, k, m[k], Render(x, m, order[1..]), was);
      HeadEntry(m, order, was);
    }
  }

  /** The keys of `m`, each at least once, in some order. */
  predicate Lists(order: seq<string>, m: map<string, string>) {
    (forall i :: 0 <= i < |order| ==> order[i] in m) && forall k :: k in m ==> k in order
  }

  /** Printing a printable map and parsing the text gives the map back. */
  lemma RoundTrip(x: Syntax, m: map<string, string>, order: seq<string>)
    requires Sane(x) && Printable(x, m) && Lists(order, m)
    ensures Parse(x, Render(x, m, order)) == m
  {
    ReadBack(x, m, order, map[]);
  }

  /** Parsing any text at all, printing the result and parsing that text changes nothing. */
  lemma NormalForm(x: Syntax, text: string, order: seq<string>)
    requires Sane(x) && Lists(order, Parse(x, text))
    ensures Parse(x, Render(x, Parse(x, text), order)) == Parse(x, text)
  {
    SourceLinesSplit(x, text);
    ParsedIsPrintable(x, SourceLines(x, text), map[]);
    RoundTrip(x, Parse(x, text), order);
  }

  /** The condition of the round trip is exact: a map that does not meet it does not come back. */
  lemma RoundTripOnlyPrintable(x: Syntax, m: map<string, string>, order: seq<string>)
    requires Sane(x) && Lists(order, m)
    ensures Parse(x, Render(x, m, order)) == m <==> Printable(x, m)
  {
    if Printable(x, m) {
      RoundTrip(x, m, order);
    } else {
      var text := Render(x, m, order);
      SourceLinesSplit(x, text);
      ParsedIsPrintable(x, SourceLines(x, text), map[]);
    }
  }

  // ---------------------------------------------------------------- where the parser stands

  lemma {:induction false} AbsorbThen(x: Syntax, lines: seq<string>, more: seq<string>, value: string)
    ensures var (v, rest) := Absorb(x, lines, value);
      Absorb(x, lines + more, value) == if rest == [] then Absorb(x, more, v) else (v, rest + more)
  {
    hide Continues, Cut, Extend, Absorb;
    if lines == [] {
      assert [] + more == more;
      Stops(x, [], value);
    } else {
      var all := [lines[0]] + (lines[1..] + more);
      assert lines + more == all && lines == [lines[0]] + lines[1..];
      if Continues(x, lines[0]) {
        AbsorbThen(x, lines[1..], more, Extend(value, Cut(x, lines[0])));
        AbsorbOne(x, lines[0], lines[1..], value);
        AbsorbOne(x, lines[0], lines[1..] + more, value);
      } else {
        Stops(x, lines, value);
        Stops(x, lines + more, value);
      }
    }
  }

  /** Where the parser stands after some lines. */
  datatype State =
    | Stopped(entries: map<string, string>)
    | Between(entries: map<string, string>)
    | InValue(key: string, value: string, entries: map<string, string>)

  function StateAfter(x: Syntax, lines: seq<string>, m: map<string, string>): State
    decreases |lines|
  {
    if lines == [] then Between(m)
    else
      var line := Cut(x, lines[0]);
      var d := Index(line, x.delim);
      if Ends(x, line) then Stopped(m)
      else if d < |line| then
        var (v, rest) := Absorb(x, lines[1..], line[d + 1..]);
        if rest == [] then InValue(line[..d], v, m) else StateAfter(x, rest, m[Trim(line[..d]) := Trim(v)])
      else StateAfter(x, lines[1..], m)
  }

  /** What the entries become when these lines follow. */
  function Finish(x: Syntax, s: State, lines: seq<string>): map<string, string> {
    match s
    case Stopped(m) => m
    case Between(m) => ParseLines(x, lines, m)
    case InValue(key, value, m) => ParseValue(x, lines, key, value, m)
  }

  /** Parsing goes line by line: what follows is read from where the parser stands. */
  lemma {:induction false} StateThen(x: Syntax, lines: seq<string>, more: seq<string>, m: map<string, string>)
    ensures ParseLines(x, lines + more, m) == Finish(x, StateAfter(x, lines, m), more)
    decreases |lines|
  {
    hide Ends, Trim, Absorb, Cut, Index, ParseLines;
    if lines == [] {
      assert [] + more == more;
    } else {
      var line := Cut(x, lines[0]);
      var d := Index(line, x.delim);
      assert lines + more == [lines[0]] + (lines[1..] + more);
      LineStep(x, lines[0], lines[1..] + more, m);
      if Ends(x, line) {
      } else if d < |line| {
        AbsorbThen(x, lines[1..], more, line[d + 1..]);
        var (v, rest) := Absorb(x, lines[1..], line[d + 1..]);
        if rest != [] {
          StateThen(x, rest, more, m[Trim(line[..d]) := Trim(v)]);
        }
      } else {
        StateThen(x, lines[1..], more, m);
      }
    }
  }

  /** After these lines a value is still open: a line that continues it is taken up. */
  predicate OpenAfter(x: Syntax, lines: seq<string>) {
    StateAfter(x, lines, map[]).InValue?
  }

  lemma NoText(x: Syntax)
    ensures SourceLines(x, "") == []
  {
  }

  // ---------------------------------------------------------------- a last line without a newline

  lemma LongerValue(value: string, part: string)
    requires !Blank(part)
    ensures Trim(Extend(Extend(value, part), part)) != Trim(Extend(value, part))
  {
    hide IsSpace, Trim;
    var a := value + "\n" + part;
    var lo, hi := TrimSplits(a);
    var k :| 0 <= k < |part| && !IsSpace(part[k]);
    assert a[|value| + 1 + k] == part[k];
    TrimTwice(value, part, lo, hi);
  }

  lemma TrimTwice(value: string, part: string, lo: nat, hi: nat)
    requires var a := value + "\n" + part;
      lo < hi <= |a| && AllSpace(a, 0, lo) && AllSpace(a, hi, |a|)
      && !IsSpace(a[lo]) && !IsSpace(a[hi - 1]) && hi > |value| + 1
    ensures Trim(value + "\n" + part + "\n" + part) == (value + "\n" + part + "\n" + part)[lo..hi + 1 + |part|]
  {
    hide IsSpace, Trim;
    var a := value + "\n" + part;
    var b := a + "\n" + part;
    assert forall j :: 0 <= j < |a| ==> b[j] == a[j];
    assert forall j :: |value| + 1 <= j < |a| ==> b[j + 1 + |part|] == a[j];
    assert forall j :: hi + 1 + |part| <= j < |b| ==> b[j] == a[j - 1 - |part|];
    TrimAt(b, lo, hi + 1 + |part|);
  }

  /** A repeated last line matters exactly when an open value takes it up. */
  lemma RepeatedLine(x: Syntax, s: State, last: string)
    requires Sane(x)
    ensures Finish(x, s, [last, Cut(x, last)]) == Finish(x, s, [last]) <==>
      !(s.InValue? && Continues(x, last) && !Blank(Cut(x, last)))
  {
    hide Sane, Ends, Trim, ParseLines, ParseValue, Extend, Blank, Cut, Index;
    match s {
      case Stopped(_) =>
      case Between(m) => Doubled(x, last, m);
      case InValue(key, value, m) => RepeatedInValue(x, last, key, value, m);
    }
  }

  lemma RepeatedInValue(x: Syntax, last: string, key: string, value: string, m: map<string, string>)
    requires Sane(x)
    ensures var c := Cut(x, last);
      ParseValue(x, [last, c], key, value, m) == ParseValue(x, [last], key, value, m) <==>
        !(Continues(x, last) && !Blank(c))
  {
    hide Sane, Ends, Contains, Trim, ParseLines, ParseValue, Extend, Blank, Cut, Index;
    var c := Cut(x, last);
    assert [last, c] == [last] + [c] && [last] + [] == [last] && [c] + [] == [c];
    CutAgain(x, c);
    Doubled(x, last, m[Trim(key) := Trim(value)]);
    ValueStep(x, last, [c], key, value, m);
    ValueStep(x, last, [], key, value, m);
    ValueStep(x, c, [], key, Extend(value, c), m);
    NoLines(x, key, Extend(value, c), m);
    NoLines(x, key, Extend(Extend(value, c), c), m);
    if Continues(x, last) {
      var once := m[Trim(key) := Trim(Extend(value, c))];
      IgnoredLine(x, c, [], once);
      NoLines(x, key, value, once);
      if !Blank(c) {
        LongerValue(value, c);
        assert once[Trim(key)] != m[Trim(key) := Trim(Extend(Extend(value, c), c))][Trim(key)];
      }
    }
  }

  lemma OneLine(x: Syntax, last: string)
    requires last != "" && '\n' !in last
    ensures SourceLines(x, last) == [last, Cut(x, last)] && SourceLines(x, last + "\n") == [last]
  {
    hide Cut;
    var ended := last + "\n";
    assert forall k :: 0 <= k < |last| ==> ended[k] == last[k];
    assert ended[|last|] == '\n' && forall k :: 0 <= k < |last| ==> ended[k] != '\n';
    assert Index(last, '\n') == |last| && Index(ended, '\n') == |last|;
    assert ended[..|last|] == last;
    assert |ended[|last| + 1..]| == 0;
    NoText(x);
  }

  lemma {:induction false} LastLine(x: Syntax, text: string, last: string)
    requires (text == "" || text[|text| - 1] == '\n') && last != "" && '\n' !in last
    ensures SourceLines(x, text + last) == SourceLines(x, text) + [last, Cut(x, last)]
    ensures SourceLines(x, text + last + "\n") == SourceLines(x, text) + [last]
  {
    hide Cut, SourceLines, Pieces;
    assert SourceLines(x, "") == [] by { NoText(x); }
    if text == "" {
      OneLine(x, last);
      assert text + last == last;
    } else {
      var i := Index(text, '\n');
      var t := text[i + 1..];
      LastLine(x, t, last);
      PiecesThenText(x, text[..i], t);
      PiecesThenText(x, text[..i], t + last);
      PiecesThenText(x, text[..i], t + last + "\n");
      assert text == text[..i] + "\n" + t;
      assert text + last == text[..i] + "\n" + (t + last);
      assert text + last + "\n" == text[..i] + "\n" + (t + last + "\n");
    }
  }

  /** Whether a final newline is missing matters exactly when the last line is a visible part of a value. */
  lemma MissingNewline(x: Syntax, text: string, last: string)
    requires Sane(x) && (text == "" || text[|text| - 1] == '\n') && last != "" && '\n' !in last
    ensures Parse(x, text + last) == Parse(x, text + last + "\n") <==>
      !(OpenAfter(x, SourceLines(x, text)) && Continues(x, last) && !Blank(Cut(x, last)))
  {
    hide StateAfter, Finish, Continues, Blank, Cut, SourceLines, ParseLines;
    LastLine(x, text, last);
    StateThen(x, SourceLines(x, text), [last, Cut(x, last)], map[]);
    StateThen(x, SourceLines(x, text), [last], map[]);
    RepeatedLine(x, StateAfter(x, SourceLines(x, text), map[]), last);
  }

  lemma TooShort(x: Syntax, line: string)
    requires |line| < |x.sentry|
    ensures !Ends(x, line)
  {
  }

  lemma OpenLine(x: Syntax, line: string)
    requires Cut(x, line) == line && x.delim in line && !Ends(x, line)
    ensures OpenAfter(x, [line])
  {
    hide Cut, Ends, Absorb;
    Stops(x, [], "");
    assert [line][1..] == [];
  }

  /** So a text may lose its meaning with its last newline: "a = b", then "c" that continues it. */
  lemma MissingNewlineExample(x: Syntax)
    requires Sane(x) && x.delim == '=' && x.comment == '#' && |x.sentry| > 5
    ensures Parse(x, "a = b\n" + "c") != Parse(x, "a = b\n" + "c" + "\n")
  {
    hide SourceLines, Absorb, Parse, OpenAfter, Ends, Cut, Sane;
    var line := "a = b";
    CutAgain(x, line);
    CutAgain(x, "c");
    assert line[2] == x.delim;
    TooShort(x, line);
    TooShort(x, "c");
    OpenLine(x, line);
    SourceStep(x, line, "");
    NoText(x);
    assert line + "\n" + "" == "a = b\n" && [line] + [] == [line];
    assert !IsSpace("c"[0]);
    MissingNewline(x, "a = b\n", "c");
  }

  // ---------------------------------------------------------------- comments, the sentry and lines in between

  /** After its last newline a text is read on its own. */
  lemma SourceSplit(x: Syntax, text: string, more: string)
    requires text == "" || text[|text| - 1] == '\n'
    ensures SourceLines(x, text + more) == SourceLines(x, text) + SourceLines(x, more)
  {
    hide SourceLines, Pieces;
    NoText(x);
    if text == "" {
      assert text + more == more;
    } else {
      var v := text[..|text| - 1];
      assert text == v + "\n" == v + "\n" + "";
      PiecesThenText(x, v, more);
      PiecesThenText(x, v, "");
    }
  }

  lemma LineBetween(x: Syntax, text: string, line: string, more: string)
    requires (text == "" || text[|text| - 1] == '\n') && '\n' !in line
    ensures SourceLines(x, text + line + "\n" + more) == SourceLines(x, text) + ([line] + SourceLines(x, more))
  {
    hide SourceLines;
    SourceSplit(x, text, line + "\n" + more);
    SourceStep(x, line, more);
    assert text + line + "\n" + more == text + (line + "\n" + more);
  }

  /** A comment starts at the first mark, and nothing in front of it is lost. */
  lemma CutComment(x: Syntax, head: string, tail: string)
    requires x.comment !in head
    ensures Cut(x, head + [x.comment] + tail) == head
  {
    var line := head + [x.comment] + tail;
    assert line[|head|] == x.comment && forall k :: 0 <= k < |head| ==> line[k] == head[k];
    assert line[..|head|] == head;
  }

  /** Lines that are the same up to their comment, and blank or not alike inside a value, mean the same. */
  lemma SameMeaning(x: Syntax, s: State, line: string, line': string, rest: seq<string>)
    requires Cut(x, line) == Cut(x, line') && (s.InValue? ==> (Blank(line) <==> Blank(line')))
    ensures Finish(x, s, [line] + rest) == Finish(x, s, [line'] + rest)
  {
    hide Blank, Cut, Ends, Trim, ParseLines, ParseValue, Extend, Index;
    match s {
      case Stopped(_) =>
      case Between(m) =>
        LineStep(x, line, rest, m);
        LineStep(x, line', rest, m);
      case InValue(key, value, m) =>
        ValueStep(x, line, rest, key, value, m);
        ValueStep(x, line', rest, key, value, m);
        LineStep(x, line, rest, m[Trim(key) := Trim(value)]);
        LineStep(x, line', rest, m[Trim(key) := Trim(value)]);
    }
  }

  /** A comment changes nothing, wherever its line stands in a text, unless it makes a blank line part of a value. */
  lemma CommentIgnored(x: Syntax, text: string, head: string, tail: string, more: string)
    requires Sane(x) && (text == "" || text[|text| - 1] == '\n')
    requires '\n' !in head && '\n' !in tail && x.comment !in head
    requires !Blank(head) || !OpenAfter(x, SourceLines(x, text))
    ensures Parse(x, text + (head + [x.comment] + tail) + "\n" + more) == Parse(x, text + head + "\n" + more)
  {
    hide Blank, Cut, SourceLines, ParseLines, Finish, StateAfter;
    var line := head + [x.comment] + tail;
    var lines, rest := SourceLines(x, text), SourceLines(x, more);
    LineBetween(x, text, line, more);
    LineBetween(x, text, head, more);
    CutComment(x, head, tail);
    CutAgain(x, head);
    VisibleHead(x, head, tail);
    StateThen(x, lines, [line] + rest, map[]);
    StateThen(x, lines, [head] + rest, map[]);
    SameMeaning(x, StateAfter(x, lines, map[]), line, head, rest);
  }

  lemma VisibleHead(x: Syntax, head: string, tail: string)
    requires Sane(x)
    ensures !Blank(head + [x.comment] + tail)
  {
    assert (head + [x.comment] + tail)[|head|] == x.comment;
  }

  /** Nor on a last line without a newline. */
  lemma LastCommentIgnored(x: Syntax, text: string, head: string, tail: string)
    requires Sane(x) && (text == "" || text[|text| - 1] == '\n')
    requires '\n' !in head && '\n' !in tail && x.comment !in head && !Blank(head)
    ensures Parse(x, text + (head + [x.comment] + tail)) == Parse(x, text + head)
  {
    hide Blank, Cut, SourceLines, ParseLines, Finish, StateAfter;
    var line := head + [x.comment] + tail;
    var lines := SourceLines(x, text);
    assert head != "" by { EmptyIsBlank(); }
    CutComment(x, head, tail);
    CutAgain(x, head);
    VisibleHead(x, head, tail);
    LastLine(x, text, line);
    LastLine(x, text, head);
    assert [line, head] == [line] + [head] && [head, head] == [head] + [head];
    StateThen(x, lines, [line] + [head], map[]);
    StateThen(x, lines, [head] + [head], map[]);
    SameMeaning(x, StateAfter(x, lines, map[]), line, head, [head]);
  }

  lemma EmptyIsBlank()
    ensures Blank("")
  {
  }

  /** The exception: a blank line ends a value, a line with nothing but a comment does not. */
  lemma CommentInValue(x: Syntax)
    requires Sane(x) && x.delim == '=' && x.comment == '#' && |x.sentry| > 6
    ensures Parse(x, "a = b\n" + "" + "\n" + "c\n") == map["a" := "b"]
    ensures Parse(x, "a = b\n" + ("" + [x.comment] + "") + "\n" + "c\n") == map["a" := "b\nc"]
  {
    hide Parse, Blank, SourceLines, Cut, Ends, Trim, Absorb, ParseLines, ParseValue, Index;
    NoText(x);
    assert SourceLines(x, "a = b\n") == ["a = b"] && SourceLines(x, "c\n") == ["c"] by {
      SourceStep(x, "a = b", "");
      SourceStep(x, "c", "");
      assert "a = b" + "\n" + "" == "a = b\n" && "c" + "\n" + "" == "c\n";
    }
    assert "" + [x.comment] + "" == "#";
    LineBetween(x, "a = b\n", "", "c\n");
    LineBetween(x, "a = b\n", "#", "c\n");
    EntryThen(x, "", false);
    EntryThen(x, "#", true);
    assert ["a = b"] + ([""] + ["c"]) == ["a = b", "", "c"] && ["a = b"] + (["#"] + ["c"]) == ["a = b", "#", "c"];
    ParseIsLines(x, "a = b\n" + "" + "\n" + "c\n");
    ParseIsLines(x, "a = b\n" + ("" + [x.comment] + "") + "\n" + "c\n");
  }

  lemma ParseIsLines(x: Syntax, text: string)
    ensures Parse(x, text) == ParseLines(x, SourceLines(x, text), map[])
  {
  }

  lemma EntryThen(x: Syntax, line: string, taken: bool)
    requires Sane(x) && x.delim == '=' && x.comment == '#' && |x.sentry| > 6
    requires line == if taken then "#" else ""
    ensures ParseLines(x, ["a = b", line, "c"], map[]) == map["a" := if taken then "b\nc" else "b"]
  {
    hide SourceLines, Cut, Ends, Trim, Absorb, ParseLines, ParseValue, Extend;
    var head := "a = b";
    CutAgain(x, head);
    CutAgain(x, "c");
    CutAgain(x, "");
    CutComment(x, "", "");
    assert "" + [x.comment] + "" == "#";
    TooShort(x, head);
    TooShort(x, "");
    TooShort(x, "c");
    assert head[2] == '=' && Index(head, '=') == 2 && head[..2] == "a " && head[3..] == " b";
    assert ["a = b", line, "c"] == ["a = b"] + ([line] + ["c"]) && ["c"] == ["c"] + [];
    assert !IsSpace("c"[0]) && !IsSpace("#"[0]);
    LineStep(x, head, [line] + ["c"], map[]);
    ValueStep(x, line, ["c"], "a ", " b", map[]);
    TrimAround("", "a", " ");
    assert "" + "a" + " " == "a ";
    if taken {
      ValueStep(x, "c", [], "a ", " b", map[]);
      assert Extend(" b", "") == " b" && Extend(" b", "c") == " b\nc" by { Extended(); }
      NoLines(x, "a ", " b\nc", map[]);
      TrimAround(" ", "b\nc", "");
      assert " " + "b\nc" + "" == " b\nc";
    } else {
      IgnoredLine(x, "", ["c"], map["a" := "b"]);
      IgnoredLine(x, "c", [], map["a" := "b"]);
      NoLines(x, "", "", map["a" := "b"]);
      TrimAround(" ", "b", "");
      assert " " + "b" + "" == " b";
    }
  }

  lemma Extended()
    ensures Extend(" b", "") == " b" && Extend(" b", "c") == " b\nc"
  {
    assert !IsSpace("c"[0]);
  }

  /** The line with the sentry and all that follows it are not read. */
  lemma SentryStops(x: Syntax, text: string, line: string, more: string)
    requires (text == "" || text[|text| - 1] == '\n') && '\n' !in line && Ends(x, Cut(x, line))
    ensures Parse(x, text + line + "\n" + more) == Parse(x, text)
  {
    hide Cut, Ends, Trim, SourceLines, ParseLines, ParseValue, StateAfter, Extend;
    var lines, rest := SourceLines(x, text), SourceLines(x, more);
    LineBetween(x, text, line, more);
    StateThen(x, lines, [line] + rest, map[]);
    StateThen(x, lines, [], map[]);
    assert lines + [] == lines;
    match StateAfter(x, lines, map[]) {
      case Stopped(_) =>
      case Between(m) =>
        LineStep(x, line, rest, m);
        NoLines(x, "", "", m);
      case InValue(key, value, m) =>
        ValueStep(x, line, rest, key, value, m);
        LineStep(x, line, rest, m[Trim(key) := Trim(value)]);
        NoLines(x, key, value, m);
    }
  }

  /** Between the entries a line without a delimiter means nothing, with or without a comment. */
  lemma StrayLine(x: Syntax, text: string, line: string, more: string)
    requires (text == "" || text[|text| - 1] == '\n') && '\n' !in line
    requires x.delim !in Cut(x, line) && !Ends(x, Cut(x, line))
    requires !OpenAfter(x, SourceLines(x, text))
    ensures Parse(x, text + line + "\n" + more) == Parse(x, text + more)
  {
    hide Cut, Ends, SourceLines, ParseLines, StateAfter;
    var lines, rest := SourceLines(x, text), SourceLines(x, more);
    LineBetween(x, text, line, more);
    SourceSplit(x, text, more);
    StateThen(x, lines, [line] + rest, map[]);
    StateThen(x, lines, rest, map[]);
    if StateAfter(x, lines, map[]).Between? {
      IgnoredLine(x, line, rest, StateAfter(x, lines, map[]).entries);
    }
  }

  /** One entry, read without its comment. */
  lemma CommentExample()
    ensures Parse(DEFAULT_SYNTAX, "a = b # c\n") == map["a" := "b"]
  {
    hide SourceLines, Parse, Cut, Ends, Trim, Absorb;
    var x := DEFAULT_SYNTAX;
    var head := "a = b ";
    DefaultIsSane();
    assert !IsSpace(head[0]);
    CommentIgnored(x, "", head, " c", "");
    assert "" + (head + [x.comment] + " c") + "\n" + "" == "a = b # c\n";
    EntryExample(x);
  }

  lemma EntryExample(x: Syntax)
    requires Sane(x) && x.delim == '=' && x.comment == '#' && |x.sentry| > 6
    ensures Parse(x, "" + "a = b " + "\n" + "") == map["a" := "b"]
  {
    hide SourceLines, Cut, Ends, Trim, Absorb, ParseLines, ParseValue;
    var head := "a = b ";
    assert "" + head + "\n" + "" == head + "\n" + "";
    SourceStep(x, head, "");
    NoText(x);
    CutAgain(x, head);
    TooShort(x, head);
    assert head[2] == '=' && Index(head, '=') == 2 && head[..2] == "a " && head[3..] == " b ";
    LineStep(x, head, [], map[]);
    NoLines(x, "a ", " b ", map[]);
    TrimAround("", "a", " ");
    TrimAround(" ", "b", " ");
    assert "" + "a" + " " == "a " && " " + "b" + " " == " b ";
  }

  /** The laws apply to the default syntax. */
  lemma DefaultIsSane()
    ensures Sane(DEFAULT_SYNTAX) && DEFAULT_SYNTAX.delim == '=' && DEFAULT_SYNTAX.comment == '#'
      && |DEFAULT_SYNTAX.sentry| > 6
  {
    hide IsSpace;
    var s := DEFAULT_SYNTAX.sentry;
    assert |s| == 13;
    forall i | 0 <= i < |s| ensures s[i] != '=' && s[i] != '#' && !IsSpace(s[i]) {
      LetterIsVisible(s[i]);
    }
    MarksAreVisible();
  }

  lemma LetterIsVisible(c: char)
    ensures 'A' <= c <= 'z' ==> c != '=' && c != '#' && !IsSpace(c)
  {
  }

  lemma MarksAreVisible()
    ensures !IsSpace('=') && !IsSpace('#')
  {
  }
}
