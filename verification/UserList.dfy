/** The user list scanner of user_manager.h:35-131: five fields a record, found by offset arithmetic. */
module UserList {
  import opened Types
  import opened CStrings

  /** A line of the file: "user pass upload download delete". */
  datatype Record = Record(user: string, pass: string, upload: string, download: string, delete: string)

  datatype User = User(user: string, pass: string, upload: bool, download: bool, delete: bool)

  predicate FieldOk(f: string) {
    f != "" && ' ' !in f && '\n' !in f && '\0' !in f
  }

  predicate RecordOk(r: Record) {
    && FieldOk(r.user) && |r.user| < USERLEN && FieldOk(r.pass) && |r.pass| < PASSLEN
    && FieldOk(r.upload) && FieldOk(r.download) && FieldOk(r.delete)
  }

  function Lower(c: char): char {
    if 'A' <= c <= 'Z' then c - 'A' + 'a' else c
  }

  /** strncasecmp( s, "true", 4 ) == 0 */
  predicate SaysTrue(s: string) {
    |s| >= 4 && Lower(s[0]) == 't' && Lower(s[1]) == 'r' && Lower(s[2]) == 'u' && Lower(s[3]) == 'e'
  }

  function UserOf(r: Record): User {
    User(r.user, r.pass, SaysTrue(r.upload), SaysTrue(r.download), SaysTrue(r.delete))
  }

  function UsersOf(rs: seq<Record>): seq<User> {
    if rs == [] then [] else [UserOf(rs[0])] + UsersOf(rs[1..])
  }

  function LineOf(r: Record): string {
    r.user + (" " + (r.pass + (" " + (r.upload + (" " + (r.download + (" " + (r.delete + "\n"))))))))
  }

  function Text(rs: seq<Record>): string {
    if rs == [] then "" else LineOf(rs[0]) + Text(rs[1..])
  }

  lemma TokField(f: string, delim: char, rest: string)
    requires FieldOk(f) && delim in {' ', '\n'}
    ensures StrTok(f + ([delim] + rest), [delim]) == f
  {
    var s := f + ([delim] + rest);
    assert s[|f|] == delim && forall j :: 0 <= j < |f| ==> s[j] == f[j];
    assert s[0] !in [delim];
    assert Span(s, 0, [delim], false) == 0;
    assert forall j :: 0 <= j < |f| ==> s[j] !in [delim];
    assert Span(s, 0, [delim], true) == |f|;
    assert s[..|f|] == f;
  }

  /** What follows the first field and its delimiter in a string. */
  lemma AfterField(f: string, delim: char, rest: string)
    ensures (f + ([delim] + rest))[|f| + 1..] == rest
  {
  }

  lemma LineThen(r: Record, rest: string)
    ensures LineOf(r) + rest ==
      r.user + ([' '] + (r.pass + ([' '] + (r.upload + ([' '] + (r.download + ([' '] + (r.delete + (['\n']
        + rest)))))))))
  {
    var e := r.delete + "\n";
    var d := r.download + (" " + e);
    var u := r.upload + (" " + d);
    var p := r.pass + (" " + u);
    assert e + rest == r.delete + ("\n" + rest);
    assert d + rest == r.download + (" " + (e + rest));
    assert u + rest == r.upload + (" " + (d + rest));
    assert p + rest == r.pass + (" " + (u + rest));
    assert LineOf(r) + rest == r.user + (" " + (p + rest));
  }

  lemma TextIsEmpty(rs: seq<Record>)
    ensures Text(rs) == "" <==> rs == []
  {
  }

  lemma SameField(f: string, f': string, delim: char, rest: string, rest': string)
    requires FieldOk(f) && FieldOk(f') && delim in {' ', '\n'}
    requires f + ([delim] + rest) == f' + ([delim] + rest')
    ensures f == f' && rest == rest'
  {
    TokField(f, delim, rest);
    TokField(f', delim, rest');
    AfterField(f, delim, rest);
    AfterField(f', delim, rest');
  }

  lemma SameLine(r: Record, r': Record, rest: string, rest': string)
    requires RecordOk(r) && RecordOk(r') && LineOf(r) + rest == LineOf(r') + rest'
    ensures r == r' && rest == rest'
  {
    hide FieldOk;
    LineThen(r, rest);
    LineThen(r', rest');
    var e, e' := r.delete + (['\n'] + rest), r'.delete + (['\n'] + rest');
    var d, d' := r.download + ([' '] + e), r'.download + ([' '] + e');
    var u, u' := r.upload + ([' '] + d), r'.upload + ([' '] + d');
    var p, p' := r.pass + ([' '] + u), r'.pass + ([' '] + u');
    SameField(r.user, r'.user, ' ', p, p');
    SameField(r.pass, r'.pass, ' ', u, u');
    SameField(r.upload, r'.upload, ' ', d, d');
    SameField(r.download, r'.download, ' ', e, e');
    SameField(r.delete, r'.delete, '\n', rest, rest');
  }

  /** The file is the text of these records. */
  predicate Holds(buf: string, records: seq<Record>) {
    records != [] && buf == Text(records) && forall i :: 0 <= i < |records| ==> RecordOk(records[i])
  }

  /** A file is the text of one list of records only. */
  lemma {:induction false} TextIsUnambiguous(a: seq<Record>, b: seq<Record>)
    requires Text(a) == Text(b)
    requires forall i :: 0 <= i < |a| ==> RecordOk(a[i])
    requires forall i :: 0 <= i < |b| ==> RecordOk(b[i])
    ensures a == b
  {
    hide LineOf, RecordOk;
    TextIsEmpty(a);
    TextIsEmpty(b);
    if a != [] {
      SameLine(a[0], b[0], Text(a[1..]), Text(b[1..]));
      TextIsUnambiguous(a[1..], b[1..]);
      assert a == [a[0]] + a[1..] && b == [b[0]] + b[1..];
    }
  }

  /** strncasecmp in terms of the characters. */
  lemma SaysTrueIff(s: string)
    ensures SaysTrue(s) <==>
      |s| >= 4 && s[0] in {'t', 'T'} && s[1] in {'r', 'R'} && s[2] in {'u', 'U'} && s[3] in {'e', 'E'}
  {
    if |s| >= 4 {
      CaseOf(s[0], 't');
      CaseOf(s[1], 'r');
      CaseOf(s[2], 'u');
      CaseOf(s[3], 'e');
    }
  }

  lemma CaseOf(c: char, small: char)
    requires 'a' <= small <= 'z'
    ensures Lower(c) == small <==> c == small || c == small - 'a' + 'A'
  {
  }

  /** The five fields of a user are the five fields of its line, in the same place of the list. */
  lemma {:induction false} UserAt(rs: seq<Record>, i: nat)
    requires i < |rs|
    ensures |UsersOf(rs)| == |rs|
    ensures var u := UsersOf(rs)[i]; var r := rs[i];
      && u.user == r.user && u.pass == r.pass
      && (u.upload <==> SaysTrue(r.upload))
      && (u.download <==> SaysTrue(r.download))
      && (u.delete <==> SaysTrue(r.delete))
  {
    hide SaysTrue;
    if i > 0 {
      UserAt(rs[1..], i - 1);
    } else if |rs| > 1 {
      UserAt(rs[1..], 0);
    }
  }

  /** A line of the list that comes with the server: its user may upload and do nothing else. */
  lemma ShippedLine(records: seq<Record>)
    requires Holds("test1 123 true false false\n", records)
    ensures UsersOf(records) == [User("test1", "123", true, false, false)]
  {
    hide LineOf, RecordOk, SaysTrue;
    var r := Record("test1", "123", "true", "false", "false");
    ShippedRecord(r);
    assert [r][1..] == [] && LineOf(r) + "" == LineOf(r);
    assert Text([r]) == LineOf(r);
    TextIsUnambiguous([r], records);
    SaysTrueIff("true");
    SaysTrueIff("false");
  }

  lemma ShippedRecord(r: Record)
    requires r == Record("test1", "123", "true", "false", "false")
    ensures LineOf(r) == "test1 123 true false false\n" && RecordOk(r)
  {
    hide FieldOk;
    assert FieldOk("test1") && FieldOk("123") && FieldOk("true") && FieldOk("false") by { ShortFields(); }
    var e := "false\n";
    var d := "false " + e;
    assert r.delete + "\n" == e;
    assert r.download + (" " + e) == d;
    assert r.upload + (" " + d) == "true " + d;
  }

  lemma ShortFields()
    ensures FieldOk("test1") && FieldOk("123") && FieldOk("true") && FieldOk("false")
  {
  }

  /** The do-while loop of the constructor, on the text of one read. */
  method Scan(buf: string) returns (users: seq<User>, readLen: int)
    requires exists records :: Holds(buf, records)
    ensures forall records :: Holds(buf, records) ==> users == UsersOf(records)
    ensures readLen == 0
  {
    hide StrTok, FieldOk, SaysTrue;
    ghost var records: seq<Record> :| Holds(buf, records);
    users := [];
    var sum := 0;
    readLen := |buf|;
    ghost var todo := records;
    var again := true;
    while again
      invariant sum >= 0 && readLen >= 0 && sum + readLen == |buf|
      invariant buf[sum..] == Text(todo)
      invariant users + UsersOf(todo) == UsersOf(records)
      invariant forall i :: 0 <= i < |todo| ==> RecordOk(todo[i])
      invariant again <==> todo != []
      invariant todo == [] ==> readLen == 0
      decreases |todo|
    {
      ghost var r := todo[0];
      ghost var rest := Text(todo[1..]);
      ghost var t4 := r.delete + (['\n'] + rest);
      ghost var t3 := r.download + ([' '] + t4);
      ghost var t2 := r.upload + ([' '] + t3);
      ghost var t1 := r.pass + ([' '] + t2);
      LineThen(r, rest);
      var user, pass, upload, download, delete;
      user, sum, readLen := NextField(buf, sum, readLen, ' ', r.user, t1);
      pass, sum, readLen := NextField(buf, sum, readLen, ' ', r.pass, t2);
      upload, sum, readLen := NextField(buf, sum, readLen, ' ', r.upload, t3);
      download, sum, readLen := NextField(buf, sum, readLen, ' ', r.download, t4);
      delete, sum, readLen := NextField(buf, sum, readLen, '\n', r.delete, rest);
      Assoc(users, [UserOf(r)], UsersOf(todo[1..]));
      users := users + [User(user, pass, SaysTrue(upload), SaysTrue(download), SaysTrue(delete))];
      todo := todo[1..];
      TextIsEmpty(todo);
      again := readLen != 0;
    }
    forall rs | Holds(buf, rs) ensures rs == records {
      TextIsUnambiguous(rs, records);
    }
  }

  /** One field: strncpy of what is left, strtok, strlen, and the arithmetic on the offsets. */
  method NextField(buf: string, sum0: int, readLen0: int, delim: char, ghost field: string, ghost rest: string)
    returns (field': string, sum: int, readLen: int)
    requires 0 <= sum0 && 0 <= readLen0 && sum0 + readLen0 == |buf|
    requires buf[sum0..] == field + ([delim] + rest) && FieldOk(field) && delim in {' ', '\n'}
    ensures field' == field && sum == sum0 + |field| + 1 && sum + readLen == |buf| && readLen >= 0 && buf[sum..] == rest
  {
    sum, readLen := sum0, readLen0;
    TokField(field, delim, rest);
    AfterField(field, delim, rest);
    assert buf[sum..sum + readLen] == buf[sum..];
    field' := StrTok(buf[sum..sum + readLen], [delim]);
    var len := |field'|;
    len := len + 1;
    sum := sum + len;
    readLen := readLen - len;
    assert buf[sum0..][len..] == buf[sum..];
  }
}
