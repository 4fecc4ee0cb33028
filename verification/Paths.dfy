/** fsm_file.cpp: CWD, PWD and the path resolution they share. */
module Paths {
  import opened Types
  import opened Strings
  import opened CStrings

  // ---------------------------------------------------------------- what the resolution means

  /** The last slash after the first character and before position `n`, or 0. */
  function LastSlash(s: string, n: int): (i: nat)
    ensures i == 0 || (i < n && i < |s| && s[i] == '/')
    ensures forall j :: i < j < n && j < |s| ==> s[j] != '/'
  {
    if n <= 1 then 0 else if n <= |s| && s[n - 1] == '/' then n - 1 else LastSlash(s, n - 1)
  }

  /** The path without its last component, unless it is the only one. */
  function Cdup(path: string): (r: string)
    ensures r <= path
  {
    var i := LastSlash(path, |path| - 1);
    if i == 0 then path else path[..i + 1]
  }

  function CdupTimes(path: string, k: nat): (r: string)
    ensures r <= path
  {
    if k == 0 then path else CdupTimes(Cdup(path), k - 1)
  }

  datatype Step = Up | Here

  function StepText(s: Step): string {
    match s case Up => "../" case Here => "./"
  }

  function StepsText(steps: seq<Step>): string {
    if steps == [] then "" else StepText(steps[0]) + StepsText(steps[1..])
  }

  function Ups(steps: seq<Step>): nat {
    if steps == [] then 0 else (if steps[0].Up? then 1 else 0) + Ups(steps[1..])
  }

  /** What the steps lead up to. */
  datatype Target =
    | Stay               // nothing
    | Parent             // ".."
    | Grandparent        // "..."
    | ParentOfRoot       // "/../"
    | Root(text: string) // "/", or four dots and anything
    | Absolute(name: string)
    | Name(name: string)
    | Bad(text: string)  // any other text that starts with a dot

  function TargetText(t: Target): string {
    match t
    case Stay => ""
    case Parent => ".."
    case Grandparent => "..."
    case ParentOfRoot => "/../"
    case Root(text) => text
    case Absolute(name) => "/" + name
    case Name(name) => name
    case Bad(text) => text
  }

  predicate TargetOk(t: Target) {
    match t
    case Root(text) => text == "/" || "...." <= text
    case Absolute(name) => name != "" && name != "../"
    case Name(name) => name != "" && name[0] != '/' && name[0] != '.'
    case Bad(text) =>
      && text != "" && text[0] == '.' && text != ".." && text != "..."
      && !("./" <= text) && !("../" <= text) && !("...." <= text)
    case _ => true
  }

  /** Where an argument leads from `cur`: up as often as it says, then to its target. */
  function Resolve(cur: string, steps: seq<Step>, t: Target, root: string): Option<string> {
    var at := CdupTimes(cur, Ups(steps));
    match t
    case Stay => Some(at)
    case Parent => Some(Cdup(at))
    case Grandparent => Some(Cdup(Cdup(at)))
    case ParentOfRoot => Some(Cdup(at))
    case Root(_) => Some(root)
    case Absolute(name) => Some(root + name)
    case Name(name) => Some(at + name)
    case Bad(_) => None
  }

  /** change_path on strings. */
  function ChangePath(cur: string, cwd: string, root: string): Option<string>
    decreases |cwd|
  {
    if cwd == "/" then Some(root)
    else if cwd == "" then Some(cur)
    else if cwd[0] == '/' then
      if cwd == "/../" then ChangePath(Cdup(cur), cwd[4..], root) else Some(root + cwd[1..])
    else if cwd[0] == '.' then
      if "." <= cwd[1..] then
        if "." <= cwd[2..] then
          if "." <= cwd[3..] then Some(root)
          else if cwd[3..] == "" then Some(Cdup(Cdup(cur)))
          else None
        else if "/" <= cwd[2..] then ChangePath(Cdup(cur), cwd[3..], root)
        else if cwd[2..] == "" then Some(Cdup(cur))
        else None
      else if "/" <= cwd[1..] then ChangePath(cur, cwd[2..], root)
      else None
    else Some(cur + cwd)
  }

  /** The target an argument without steps is. */
  function TargetOf(cwd: string): (t: Target)
    requires !("../" <= cwd) && !("./" <= cwd)
    ensures TargetOk(t) && TargetText(t) == cwd
  {
    if cwd == "" then Stay
    else if cwd == ".." then Parent
    else if cwd == "..." then Grandparent
    else if cwd == "/../" then ParentOfRoot
    else if cwd == "/" || "...." <= cwd then Root(cwd)
    else if cwd[0] == '/' then
      assert cwd == "/" + cwd[1..];
      Absolute(cwd[1..])
    else if cwd[0] == '.' then Bad(cwd)
    else Name(cwd)
  }

  /** Every argument has exactly this shape ... */
  lemma {:induction false} Shaped(cwd: string) returns (steps: seq<Step>, t: Target)
    ensures cwd == StepsText(steps) + TargetText(t) && TargetOk(t)
    decreases |cwd|
  {
    hide TargetOk, TargetText;
    if "../" <= cwd || "./" <= cwd {
      var s := if "../" <= cwd then Up else Here;
      var rest;
      rest, t := Shaped(cwd[|StepText(s)|..]);
      steps := [s] + rest;
      assert steps[1..] == rest;
      assert cwd == StepText(s) + cwd[|StepText(s)|..];
      Assoc(StepText(s), StepsText(rest), TargetText(t));
    } else {
      steps, t := [], TargetOf(cwd);
    }
  }

  /** ... and the resolution follows it. */
  lemma {:induction false} ChangePathResolves(cur: string, steps: seq<Step>, t: Target, root: string)
    requires TargetOk(t)
    ensures ChangePath(cur, StepsText(steps) + TargetText(t), root) == Resolve(cur, steps, t, root)
    decreases |steps|
  {
    hide ChangePath, Cdup, StepText, TargetText;
    if steps == [] {
      TargetResolves(cur, t, root);
      assert "" + TargetText(t) == TargetText(t);
    } else {
      var rest := StepsText(steps[1..]) + TargetText(t);
      Assoc(StepText(steps[0]), StepsText(steps[1..]), TargetText(t));
      StepResolves(cur, steps[0], rest, root);
      ChangePathResolves(if steps[0].Up? then Cdup(cur) else cur, steps[1..], t, root);
    }
  }

  lemma StepResolves(cur: string, s: Step, rest: string, root: string)
    ensures ChangePath(cur, StepText(s) + rest, root) == ChangePath(if s.Up? then Cdup(cur) else cur, rest, root)
  {
    hide Cdup;
    var cwd := StepText(s) + rest;
    if s.Up? {
      assert cwd[3..] == rest && cwd[2] == '/' && cwd[1] == '.';
    } else {
      assert cwd[2..] == rest && cwd[1] == '/';
    }
  }

  lemma TargetResolves(cur: string, t: Target, root: string)
    requires TargetOk(t)
    ensures ChangePath(cur, TargetText(t), root) == Resolve(cur, [], t, root)
  {
    var text := TargetText(t);
    match t {
      case Absolute(name) =>
        assert text[1..] == name && |text| == |name| + 1;
        assert "/../"[1..] == "../";
      case ParentOfRoot => assert |text[4..]| == 0;
      case Bad(_) => assert text[0] == '.';
      case _ =>
    }
  }

  // ---------------------------------------------------------------- in terms of components

  predicate Component(c: string) {
    c != "" && '/' !in c
  }

  /** "/c1/.../cn/" */
  function Dir(cs: seq<string>): string {
    if cs == [] then "/" else Dir(cs[..|cs| - 1]) + (cs[|cs| - 1] + "/")
  }

  lemma {:induction false} DirEnds(cs: seq<string>)
    ensures Dir(cs) != "" && Dir(cs)[|Dir(cs)| - 1] == '/'
  {
  }

  /** All but the last `k` components, but always the first. */
  function Kept(cs: seq<string>, k: nat): seq<string>
    requires cs != []
  {
    cs[..if |cs| - k > 1 then |cs| - k else 1]
  }

  lemma CdupSplit(up: string, c: string)
    requires up != "" && up[|up| - 1] == '/' && Component(c)
    ensures Cdup(up + (c + "/")) == if |up| == 1 then up + (c + "/") else up
  {
    hide LastSlash;
    var d := up + (c + "/");
    var i := LastSlash(d, |d| - 1);
    assert forall j :: |up| <= j < |d| - 1 ==> d[j] == c[j - |up|];
    assert d[|up| - 1] == '/';
    assert d[..|up|] == up;
    assert i < |up|;
  }

  lemma CdupDir(cs: seq<string>)
    requires cs != [] && forall i :: 0 <= i < |cs| ==> Component(cs[i])
    ensures Cdup(Dir(cs)) == Dir(Kept(cs, 1))
  {
    hide Cdup, LastSlash;
    var n := |cs|;
    DirEnds(cs[..n - 1]);
    CdupSplit(Dir(cs[..n - 1]), cs[n - 1]);
    if n == 1 {
      assert cs[..1] == cs;
    } else {
      assert |Dir(cs[..n - 1])| >= 2;
    }
  }

  lemma {:induction false} CdupTimesDir(cs: seq<string>, k: nat)
    requires cs != [] && forall i :: 0 <= i < |cs| ==> Component(cs[i])
    ensures CdupTimes(Dir(cs), k) == Dir(Kept(cs, k))
    decreases k
  {
    hide Dir, Cdup;
    if k == 0 {
      assert cs[..|cs|] == cs;
    } else {
      CdupDir(cs);
      CdupTimesDir(Kept(cs, 1), k - 1);
      assert Kept(Kept(cs, 1), k - 1) == Kept(cs, k);
    }
  }

  lemma CdupKept(cs: seq<string>, k: nat)
    requires cs != [] && forall i :: 0 <= i < |cs| ==> Component(cs[i])
    ensures Cdup(Dir(Kept(cs, k))) == Dir(Kept(cs, k + 1))
  {
    hide Cdup, Dir, Component;
    CdupDir(Kept(cs, k));
    assert Kept(Kept(cs, k), 1) == Kept(cs, k + 1);
  }

  /** How far a target climbs by itself. */
  function Climb(t: Target): nat {
    match t
    case Parent => 1
    case ParentOfRoot => 1
    case Grandparent => 2
    case _ => 0
  }

  /** On a path of components an argument drops as many as it climbs, never the first, and adds its name. */
  lemma ChangePathOnComponents(cs: seq<string>, steps: seq<Step>, t: Target, root: string)
    requires cs != [] && forall i :: 0 <= i < |cs| ==> Component(cs[i])
    requires TargetOk(t)
    ensures ChangePath(Dir(cs), StepsText(steps) + TargetText(t), root) ==
      match t
      case Bad(_) => None
      case Root(_) => Some(root)
      case Absolute(name) => Some(root + name)
      case Name(name) => Some(Dir(Kept(cs, Ups(steps))) + name)
      case _ => Some(Dir(Kept(cs, Ups(steps) + Climb(t))))
  {
    hide ChangePath, Cdup, StepsText, Dir, Kept, Component, TargetText;
    var k := Ups(steps);
    ChangePathResolves(Dir(cs), steps, t, root);
    CdupTimesDir(cs, k);
    CdupKept(cs, k);
    CdupKept(cs, k + 1);
  }

  // ---------------------------------------------------------------- in place

  /** com_CDUP */
  method ComCdup(path: array<char>)
    requires Ended(path[..])
    modifies path
    ensures Ended(path[..]) && CString(path[..]) == Cdup(old(CString(path[..])))
  {
    var len: int := StrLen(path[..]);
    ghost var text := CString(path[..]);
    if len == 1 && path[0] == '/' {
      return;
    }
    var i: int := len - 2;
    while i > 0
      invariant i <= len - 2 && path[..] == old(path[..])
      invariant forall j :: i < j < len - 1 && 0 < j ==> path[j] != '/'
    {
      if path[i] == '/' {
        assert LastSlash(text, len - 1) == i;
        path[i + 1] := '\0';
        StrLenIs(path[..], i + 1);
        assert path[..][..i + 1] == text[..i + 1];
        return;
      }
      i := i - 1;
    }
    assert LastSlash(text, len - 1) == 0;
  }

  /** What change_path leaves in the buffer of its argument: an absolute path is completed there. */
  function Shown(cwd: string, root: string): string {
    if cwd != "" && cwd[0] == '/' && cwd != "/" && cwd != "/../" then root + cwd[1..] else cwd
  }

  /**
   change_path: the path in `cur` is edited where it stands, an absolute argument in `cwd` is; no answer means
   that the argument is refused.
   */
  method ChangePathIn(cur: array<char>, cwd: array<char>, root: string) returns (path: Option<string>)
    requires cur != cwd && Ended(cur[..]) && Ended(cwd[..]) && '\0' !in root
    requires StrLen(cur[..]) + StrLen(cwd[..]) < cur.Length && |root| + StrLen(cwd[..]) < cwd.Length
    modifies cur, cwd
    ensures Ended(cur[..]) && Ended(cwd[..])
    ensures path == ChangePath(old(CString(cur[..])), old(CString(cwd[..])), root)
    ensures CString(cwd[..]) == Shown(old(CString(cwd[..])), root)
    decreases StrLen(cwd[..]), 0
  {
    hide Cdup, LastSlash;
    var arg := CString(cwd[..]);
    if arg == "/" {
      return Some(root);
    } else if arg == "" {
      return Some(CString(cur[..]));
    } else if arg[0] == '/' {
      if arg == "/../" {
        ComCdup(cur);
        path := Further(cur, arg[4..], cwd.Length, root);
      } else {
        Store(cwd, root + arg[1..]);
        return Some(CString(cwd[..]));
      }
    } else if arg[0] == '.' {
      if "." <= arg[1..] {
        if "." <= arg[2..] {
          if "." <= arg[3..] {
            return Some(root);
          } else if arg[3..] == "" {
            ComCdup(cur);
            ComCdup(cur);
            return Some(CString(cur[..]));
          } else {
            return None;
          }
        } else if "/" <= arg[2..] {
          ComCdup(cur);
          path := Further(cur, arg[3..], cwd.Length, root);
        } else if arg[2..] == "" {
          ComCdup(cur);
          return Some(CString(cur[..]));
        } else {
          return None;
        }
      } else if "/" <= arg[1..] {
        path := Further(cur, arg[2..], cwd.Length, root);
      } else {
        return None;
      }
    } else {
      Append(cur, arg);
      return Some(CString(cur[..]));
    }
  }

  /** The recursive call, with the rest of the argument in a buffer of its own. */
  method Further(cur: array<char>, rest: string, size: nat, root: string) returns (path: Option<string>)
    requires Ended(cur[..]) && StrLen(cur[..]) + |rest| < cur.Length && |root| + |rest| < size
    requires '\0' !in rest && '\0' !in root
    modifies cur
    ensures Ended(cur[..]) && path == ChangePath(old(CString(cur[..])), rest, root)
    decreases |rest|, 1
  {
    var temp := new char[size](_ => '\0');
    Store(temp, rest);
    path := ChangePathIn(cur, temp, root);
  }

  // ---------------------------------------------------------------- CWD and PWD

  datatype Stat = NoEntry | Directory | OtherFile

  predicate EndsInSlash(path: string) {
    path != "" && path[|path| - 1] == '/'
  }

  function Slashed(path: string): string {
    if EndsInSlash(path) then path else path + "/"
  }

  /** What com_CWD leaves in cur_path, its reply, and the path quoted in the reply. */
  function Cwd(cur: string, root: string, command: string, fs: string -> Stat): (string, nat, string)
    requires root != ""
  {
    if command == "" then (root, 504, "")
    else if command[0] != ' ' then (cur, 500, "")
    else
      var jump := command[1..];
      match ChangePath(cur, jump, root)
      case None => (cur, 550, jump)
      case Some(path) =>
        if fs(path).NoEntry? || !Contains(path, root) then (cur, 550, Shown(jump, root))
        else if fs(path).Directory? then (Slashed(path), 250, Slashed(path)[|root| - 1..])
        else (cur, 550, path[|root|..])
  }

  /** What PWD shows: the path from the last slash of the root on. */
  function Pwd(cur: string, root: string): string
    requires 0 < |root| <= |cur|
  {
    cur[|root| - 1..]
  }

  /** root_path, cur_path and log_in of session.h */
  class PathSession {
    const root: string
    var cur: string
    var login: bool

    ghost predicate Valid()
      reads this
    {
      EndsInSlash(root) && EndsInSlash(cur) && Contains(cur, root) && '\0' !in cur && '\0' !in root
    }

    constructor (root: string)
      requires EndsInSlash(root) && '\0' !in root
      ensures Valid() && this.root == root && cur == root
    {
      this.root, cur, login := root, root, false;
      Whole(root);
    }

    /** com_CWD; `fs` is what lstat says */
    method ComCwd(command: string, fs: string -> Stat) returns (code: nat, said: string)
      requires Valid() && '\0' !in command
      modifies this`cur
      ensures Valid() && (cur, code, said) == Cwd(old(cur), root, command, fs)
    {
      hide Occurs;
      KeepsSlash(cur, root, command, fs);
      if command == "" {
        cur := root;
        return 504, "";
      } else if command[0] != ' ' {
        return 500, "";
      }
      var arg := command[1..];
      var buf := new char[|cur| + |arg| + 1](_ => '\0');
      Store(buf, cur);
      var jump := new char[|root| + |arg| + 1](_ => '\0');
      Store(jump, arg);
      var path := ChangePathIn(buf, jump, root);
      if path == None || fs(path.value) == NoEntry || !Contains(path.value, root) {
        assert path == None ==> Shown(arg, root) == arg;
        return 550, CString(jump[..]);
      } else if fs(path.value) == Directory {
        cur := if EndsInSlash(path.value) then path.value else path.value + "/";
        return 250, cur[|root| - 1..];
      } else {
        return 550, path.value[|root|..];
      }
    }

    /** com_PWD */
    method ComPwd() returns (code: nat, said: string)
      requires Valid()
      ensures login ==> code == 257 && said == Pwd(cur, root)
      ensures !login ==> code == 550 && said == ""
    {
      if login {
        return 257, cur[|root| - 1..];
      } else {
        return 550, "";
      }
    }
  }

  lemma Whole(s: string)
    ensures Contains(s, s)
  {
    assert Occurs(s, s, 0);
  }

  lemma ContainsMore(s: string, more: string, w: string)
    requires Contains(s, w)
    ensures Contains(s + more, w)
  {
    assert (s + more)[0..|s|] == s;
    ContainsPart(s + more, w, 0, |s|);
  }

  /** CWD keeps a current directory that ends in a slash and has the root in it, without NULs. */
  lemma KeepsSlash(cur: string, root: string, command: string, fs: string -> Stat)
    requires EndsInSlash(root) && EndsInSlash(cur) && Contains(cur, root)
    requires '\0' !in cur && '\0' !in root && '\0' !in command
    ensures var next := Cwd(cur, root, command, fs).0;
      EndsInSlash(next) && Contains(next, root) && '\0' !in next
  {
    hide Occurs, ChangePath;
    Whole(root);
    if command != "" && command[0] == ' ' {
      NoNul(cur, command[1..], root);
      var p := ChangePath(cur, command[1..], root);
      if p.Some? && Contains(p.value, root) {
        ContainsMore(p.value, "/", root);
      }
    }
  }

  lemma NoNul(cur: string, cwd: string, root: string)
    requires '\0' !in cur && '\0' !in root && '\0' !in cwd
    ensures ChangePath(cur, cwd, root).Some? ==> '\0' !in ChangePath(cur, cwd, root).value
  {
    hide ChangePath, Cdup, CdupTimes;
    var steps, t := Shaped(cwd);
    ChangePathResolves(cur, steps, t, root);
    var text := TargetText(t);
    assert forall k :: 0 <= k < |text| ==> text[k] == cwd[|StepsText(steps)| + k];
    match t {
      case Absolute(name) => assert forall k :: 0 <= k < |name| ==> name[k] == text[k + 1];
      case _ =>
    }
  }

  /** What CWD answers: 250 exactly for a directory with the root in its path, which then is the current one. */
  lemma CwdCodes(cur: string, root: string, steps: seq<Step>, t: Target, fs: string -> Stat)
    requires root != "" && TargetOk(t)
    ensures var (next, code, said) := Cwd(cur, root, " " + (StepsText(steps) + TargetText(t)), fs);
      var path := Resolve(cur, steps, t, root);
      && (code == 250 <==> path.Some? && fs(path.value) == Directory && Contains(path.value, root))
      && (code == 250 ==> next == Slashed(path.value) && |root| <= |next| && said == Pwd(next, root))
      && (code != 250 ==> code == 550 && next == cur)
  {
    hide ChangePath, Resolve, StepsText, Occurs;
    var text := StepsText(steps) + TargetText(t);
    var path := Resolve(cur, steps, t, root);
    assert (" " + text)[1..] == text;
    ChangePathResolves(cur, steps, t, root);
    if path.Some? && Contains(path.value, root) {
      ContainsLonger(path.value, root);
    }
  }

  /** Every other command leaves the directory alone, except that an empty one goes to the root. */
  lemma CwdRefused(cur: string, root: string, command: string, fs: string -> Stat)
    requires root != "" && !(" " <= command)
    ensures var (next, code, said) := Cwd(cur, root, command, fs);
      said == "" && (next, code) == if command == "" then (root, 504) else (cur, 500)
  {
    hide ChangePath;
  }

  // ---------------------------------------------------------------- the lexical invariant

  /** A successful CWD stays under the root, unless it climbs above it and then names another way down. */
  lemma CwdLexical(cur: string, root: string, steps: seq<Step>, t: Target, fs: string -> Stat)
    requires EndsInSlash(root) && root <= cur && TargetOk(t)
    ensures var r := Cwd(cur, root, " " + (StepsText(steps) + TargetText(t)), fs); var at := CdupTimes(cur, Ups(steps));
      root <= r.0 <==>
        (t.Name? && |at| < |root| && fs(at + t.name).Directory? && Contains(at + t.name, root) ==>
           root[|at|..] <= t.name)
  {
    hide ChangePath, StepsText, Occurs, Cdup;
    var text := StepsText(steps) + TargetText(t);
    var at := CdupTimes(cur, Ups(steps));
    assert (" " + text)[1..] == text;
    ChangePathResolves(cur, steps, t, root);
    var r := Cwd(cur, root, " " + text, fs);
    if r.1 == 250 {
      var path := Resolve(cur, steps, t, root).value;
      ContainsLonger(path, root);
      match t {
        case Root(_) =>
        case Absolute(name) =>
        case Name(name) => ReEnters(cur, root, at, name);
        case _ => BothPrefixes(root, path, cur);
      }
      assert root <= path <==> root <= r.0;
    }
  }

  lemma ContainsLonger(s: string, w: string)
    requires Contains(s, w)
    ensures |s| >= |w|
  {
  }

  lemma BothPrefixes(a: string, b: string, c: string)
    requires a <= c && b <= c && |a| <= |b|
    ensures a <= b
  {
    assert a == c[..|a|] && b == c[..|b|];
    assert b[..|a|] == a;
  }

  lemma ReEnters(cur: string, root: string, at: string, name: string)
    requires root <= cur && at <= cur && |root| <= |at| + |name|
    ensures root <= at + name <==> |root| <= |at| || root[|at|..] <= name
  {
    var path := at + name;
    if |root| <= |at| {
      BothPrefixes(root, at, cur);
      assert path[..|root|] == at[..|root|];
    } else {
      BothPrefixes(at, root, cur);
      var n := |root| - |at|;
      assert path[..|root|] == at + name[..n];
      assert root == at + root[|at|..];
      assert root[|at|..] <= name <==> name[..n] == root[|at|..];
    }
  }

  datatype Call = Call(command: string, fs: string -> Stat)

  /** cur_path after these CWD commands of a session. */
  function CurAfter(root: string, calls: seq<Call>): string
    requires root != ""
  {
    if calls == [] then root
    else Cwd(CurAfter(root, calls[..|calls| - 1]), root, calls[|calls| - 1].command, calls[|calls| - 1].fs).0
  }

  /** The command does not climb and then name something. */
  ghost predicate Tame(command: string) {
    forall steps, t :: TargetOk(t) && t.Name? && command == " " + (StepsText(steps) + TargetText(t)) ==> Ups(steps) == 0
  }

  /** Whatever the file system says, CWD commands that do not climb and then name something stay under the root. */
  lemma {:induction false} StaysUnderRoot(root: string, calls: seq<Call>)
    requires EndsInSlash(root) && forall i :: 0 <= i < |calls| ==> Tame(calls[i].command)
    ensures root <= CurAfter(root, calls)
  {
    hide ChangePath, StepsText;
    if calls != [] {
      var c := calls[|calls| - 1];
      var cur := CurAfter(root, calls[..|calls| - 1]);
      StaysUnderRoot(root, calls[..|calls| - 1]);
      if c.command != "" && c.command[0] == ' ' {
        var steps, t := Shaped(c.command[1..]);
        assert c.command == " " + c.command[1..];
        CwdLexical(cur, root, steps, t, c.fs);
        assert t.Name? ==> Ups(steps) == 0;
      }
    }
  }

  /** Without that restriction the root is left, by a path that has the root further on. */
  lemma ClimbsOut(fs: string -> Stat)
    requires forall p :: fs(p) == Directory
    ensures Cwd("/a/b/", "/a/b/", " ../a/b/", fs).0 == "/a/a/b/"
  {
    hide ChangePath, LastSlash;
    var cur := "/a/b/";
    var name := "a/b/";
    assert Up.Up? && StepText(Up) == "../" && TargetText(Name(name)) == name;
    StepResolves(cur, Up, name, cur);
    var i := LastSlash(cur, 4);
    assert cur[3] == 'b' && cur[2] == '/';
    assert i == 2 && cur[..3] == "/a/";
    TargetResolves("/a/", Name(name), cur);
    var r := "/a/a/b/";
    assert "/a/" + name == r;
    assert r[2..7] == cur;
    assert Occurs(r, cur, 2);
    assert " ../a/b/"[1..] == "../" + name;
    assert ChangePath(cur, "../" + name, cur) == Some(r);
  }

  // ---------------------------------------------------------------- PWD and CWD

  /** The path that PWD shows leads back from anywhere, except that "/../" is not read as a path. */
  lemma PwdThenChangePath(cur: string, root: string, at: string)
    requires EndsInSlash(root) && root <= cur
    ensures ChangePath(at, Pwd(cur, root), root) == Some(if Pwd(cur, root) == "/../" then Cdup(at) else cur)
  {
    hide Cdup, LastSlash;
    var p := Pwd(cur, root);
    assert p[0] == '/' && root + p[1..] == cur;
    if p == "/../" {
      assert p[4..] == "";
      assert ChangePath(at, p, root) == ChangePath(Cdup(at), "", root);
    } else if p == "/" {
      assert p[1..] == "";
      assert root == cur;
    }
  }

  lemma CdupOfDots(root: string)
    requires EndsInSlash(root)
    ensures Cdup(root + "../") == if root == "/" then root + "../" else root
  {
    hide LastSlash;
    var cur := root + "../";
    var i := LastSlash(cur, |cur| - 1);
    assert cur[|root|] == '.' && cur[|root| + 1] == '.' && cur[|root| - 1] == '/';
    assert i == |root| - 1;
    assert cur[..|root|] == root;
  }

  /** From the directory itself, the exception is only one when the root is not "/". */
  lemma PwdThenCwd(cur: string, root: string, fs: string -> Stat)
    requires EndsInSlash(root) && root <= cur && EndsInSlash(cur) && fs(cur) == Directory
    ensures Cwd(cur, root, " " + Pwd(cur, root), fs) == (cur, 250, Pwd(cur, root)) <==>
      (Pwd(cur, root) != "/../" || root == "/")
  {
    hide ChangePath, Cdup, Occurs;
    var p := Pwd(cur, root);
    assert (" " + p)[1..] == p;
    PwdThenChangePath(cur, root, cur);
    assert cur[0..|root|] == root;
    Whole(root);
    ContainsPart(cur, root, 0, |root|);
    if p == "/../" {
      assert cur == root + "../";
      CdupOfDots(root);
    }
  }

  /** The exception is reached: CWD "/.." leads to it, and CWD to the path that PWD then shows leads away. */
  lemma DotsDirectory(root: string, fs: string -> Stat)
    requires EndsInSlash(root) && root != "/" && forall p :: fs(p) == Directory
    ensures var cur := root + "../";
      && Cwd(root, root, " /..", fs) == (cur, 250, Pwd(cur, root))
      && Pwd(cur, root) == "/../" && Cwd(cur, root, " " + Pwd(cur, root), fs) == (root, 250, "/")
  {
    hide Cdup, Occurs, LastSlash;
    var cur := root + "../";
    assert " /.."[1..] == "/.." && "/.."[1..] == "..";
    assert ChangePath(root, "/..", root) == Some(root + "..");
    Whole(root);
    ContainsMore(root, "..", root);
    assert Slashed(root + "..") == cur;
    assert Pwd(cur, root) == "/../";
    assert " /../"[1..] == "/../" && " " + "/../" == " /../";
    PwdThenChangePath(cur, root, cur);
    CdupOfDots(root);
    assert Slashed(root)[|root| - 1..] == "/";
  }
}
