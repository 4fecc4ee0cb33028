/** The 227 reply of run_pasv (fsm_transfer.cpp:137-209): the address and port of a passive data connection. */
module Pasv227 {
  import opened Types
  import opened Strings

  // ---------------------------------------------------------------- numbers

  function Digit(d: nat): char
    requires d < 10
  {
    '0' + d as char
  }

  /** printf( "%d" ) of a number that is not negative */
  function Decimal(n: nat): (r: string)
    ensures r != ""
  {
    if n < 10 then [Digit(n)] else Decimal(n / 10) + [Digit(n % 10)]
  }

  /** snprintf( port, PORT_PART_LEN, "%d", n ): what fits beside the NUL */
  function Short(n: int): string {
    var text := if n < 0 then "-" + Decimal(-n) else Decimal(n);
    if |text| < PORT_PART_LEN then text else text[..PORT_PART_LEN - 1]
  }

  lemma {:induction false} DecimalLength(n: nat)
    ensures |Decimal(n)| <= 1 <==> n < 10
    ensures |Decimal(n)| <= 2 <==> n < 100
    ensures |Decimal(n)| <= 3 <==> n < 1000
  {
    if n >= 10 {
      DecimalLength(n / 10);
    }
  }

  /** A number that does not fit is cut to its first three digits. */
  lemma {:induction false} DecimalCut(n: nat) returns (m: nat)
    requires n >= 1000
    ensures m < 1000 && |Decimal(n)| > 3 && Decimal(n)[..3] == Decimal(m)
  {
    DecimalLength(n);
    DecimalLength(n / 10);
    if n / 10 < 1000 {
      m := n / 10;
      assert Decimal(n)[..3] == Decimal(m);
    } else {
      m := DecimalCut(n / 10);
      assert Decimal(n)[..3] == Decimal(n / 10)[..3];
    }
  }

  lemma {:induction false} DecimalDigits(n: nat)
    ensures forall i :: 0 <= i < |Decimal(n)| ==> '0' <= Decimal(n)[i] <= '9'
  {
    if n >= 10 {
      DecimalDigits(n / 10);
    }
  }

  // ---------------------------------------------------------------- the encoder

  /** The address with commas for its dots. */
  function Commas(ip: string): (r: string)
    ensures |r| == |ip| && forall i :: 0 <= i < |ip| ==> r[i] == if ip[i] == '.' then ',' else ip[i]
  {
    seq(|ip|, i requires 0 <= i < |ip| => if ip[i] == '.' then ',' else ip[i])
  }

  function Reply227(ip: string, port: int): string {
    "227 Entering Passive Mode (" + (Commas(ip) + "," + (Short(port / 256) + "," + (Short(port % 256) + ").\r\n")))
  }

  lemma Assembled(head: string, host: string, high: string, low: string)
    ensures head + (host + ",") + high + "," + low + ").\r\n" == head + (host + "," + (high + "," + (low + ").\r\n")))
  {
  }

  /** run_pasv; `ip` is server_ip */
  method RunPasv(ip: string, port: int, startPort: int, endPort: int) returns (reply: string)
    requires |ip| < IPLEN && '\0' !in ip
    ensures reply == if startPort < port < endPort then Reply227(ip, port)
                     else "502 Server is busy now, Service not available.\r\n"
  {
    hide Decimal, Short;
    if startPort < port < endPort {
      var hostIp := new char[PASV_RET_IPLEN](_ => '\0');
      var i := 0;
      while i < |ip|
        invariant i <= |ip|
        invariant forall j :: 0 <= j < i ==> hostIp[j] == if ip[j] == '.' then ',' else ip[j]
      {
        hostIp[i] := if ip[i] == '.' then ',' else ip[i];
        i := i + 1;
      }
      hostIp[i] := ',';
      hostIp[i + 1] := '\0';
      assert hostIp[..i + 1] == Commas(ip) + ",";
      var head := "227 Entering Passive Mode (";
      var high, low := Short(port / 256), Short(port % 256);
      reply := head + hostIp[..i + 1];
      reply := reply + high;
      reply := reply + ",";
      reply := reply + low;
      reply := reply + ").\r\n";
      Assembled(head, Commas(ip), high, low);
    } else {
      reply := "502 Server is busy now, Service not available.\r\n";
    }
  }

  // ---------------------------------------------------------------- the decoder of RFC 959

  /** h1,h2,h3,h4,p1,p2 of section 4.1.2: decimals between commas, up to the first other character. */
  function Numbers(s: string, acc: nat): seq<nat> {
    if s == "" then [acc]
    else if s[0] == ',' then [acc] + Numbers(s[1..], 0)
    else if '0' <= s[0] <= '9' then Numbers(s[1..], 10 * acc + (s[0] - '0') as nat)
    else [acc]
  }

  /** The address and the port a client reads from the reply. */
  function Decode(reply: string): Option<(seq<nat>, nat)> {
    var open := Index(reply, '(');
    if open == |reply| then None
    else
      var ns := Numbers(reply[open + 1..], 0);
      if |ns| != 6 then None else Some((ns[..4], 256 * ns[4] + ns[5]))
  }

  lemma {:induction false} NumbersDecimal(n: nat, rest: string)
    ensures Numbers(Decimal(n) + rest, 0) == Numbers(rest, n)
    decreases n
  {
    if n < 10 {
      NumbersDigit(n, rest, 0);
    } else {
      var d := n % 10;
      NumbersDecimal(n / 10, [Digit(d)] + rest);
      NumbersDigit(d, rest, n / 10);
      Assoc(Decimal(n / 10), [Digit(d)], rest);
    }
  }

  lemma NumbersDigit(d: nat, rest: string, acc: nat)
    requires d < 10
    ensures Numbers([Digit(d)] + rest, acc) == Numbers(rest, 10 * acc + d)
  {
    assert ([Digit(d)] + rest)[1..] == rest;
  }

  lemma NumbersField(n: nat, rest: string)
    ensures Numbers(Decimal(n) + ("," + rest), 0) == [n] + Numbers(rest, 0)
  {
    NumbersDecimal(n, "," + rest);
    assert ("," + rest)[1..] == rest;
  }

  function Dotted(a: nat, b: nat, c: nat, d: nat): string {
    Decimal(a) + ("." + (Decimal(b) + ("." + (Decimal(c) + ("." + Decimal(d))))))
  }

  lemma CommasAppend(s: string, t: string)
    ensures Commas(s + t) == Commas(s) + Commas(t)
  {
  }

  lemma CommasDecimal(n: nat)
    ensures Commas(Decimal(n)) == Decimal(n)
  {
    DecimalDigits(n);
  }

  lemma CommasField(n: nat, rest: string)
    ensures Commas(Decimal(n) + ("." + rest)) == Decimal(n) + ("," + Commas(rest))
  {
    CommasDecimal(n);
    CommasAppend(Decimal(n), "." + rest);
    CommasAppend(".", rest);
    assert Commas(".") == ",";
  }

  /** The numbers of the reply for a dotted quad and any port that is not negative. */
  lemma ReplyNumbers(a: nat, b: nat, c: nat, d: nat, high: nat, low: nat)
    ensures var t := Commas(Dotted(a, b, c, d)) + "," + (Decimal(high) + "," + (Decimal(low) + ").\r\n"));
      Numbers(t, 0) == [a, b, c, d, high, low]
  {
    hide Decimal, Commas, Numbers;
    var tail := ").\r\n";
    var ports := Decimal(high) + ("," + (Decimal(low) + tail));
    CommasField(a, Decimal(b) + ("." + (Decimal(c) + ("." + Decimal(d)))));
    CommasField(b, Decimal(c) + ("." + Decimal(d)));
    CommasField(c, Decimal(d));
    CommasDecimal(d);
    NumbersField(a, Decimal(b) + ("," + (Decimal(c) + ("," + (Decimal(d) + ("," + ports))))));
    NumbersField(b, Decimal(c) + ("," + (Decimal(d) + ("," + ports))));
    NumbersField(c, Decimal(d) + ("," + ports));
    NumbersField(d, ports);
    NumbersField(high, Decimal(low) + tail);
    NumbersDecimal(low, tail);
    assert Numbers(tail, low) == [low] by { NumbersEnd(low); }
    Regroup(Decimal(a), Decimal(b), Decimal(c), Decimal(d), Decimal(high), Decimal(low) + tail);
  }

  lemma NumbersEnd(n: nat)
    ensures Numbers(").\r\n", n) == [n]
  {
  }

  lemma Regroup(a: string, b: string, c: string, d: string, high: string, low: string)
    ensures a + ("," + (b + ("," + (c + ("," + d))))) + "," + (high + "," + low)
         == a + ("," + (b + ("," + (c + ("," + (d + ("," + (high + ("," + low)))))))))
  {
    Assoc(high, ",", low);
    var p := "," + (high + "," + low);
    assert c + ("," + d) + p == c + ("," + (d + p));
    assert b + ("," + (c + ("," + d))) + p == b + ("," + (c + ("," + d) + p));
    assert a + ("," + (b + ("," + (c + ("," + d))))) + p == a + ("," + (b + ("," + (c + ("," + d))) + p));
  }

  /** What a client reads from the reply: the address, and the port unless it is too large for six digits. */
  lemma ReplyDecodes(a: nat, b: nat, c: nat, d: nat, port: nat)
    ensures Decode(Reply227(Dotted(a, b, c, d), port)) == Some(([a, b, c, d], port)) <==> port < 256_000
  {
    hide Decimal, Commas, Numbers, Dotted;
    var high := port / 256;
    DecimalLength(high);
    DecimalLength(port % 256);
    var high' := high;
    if high >= 1000 {
      high' := DecimalCut(high);
    }
    ReplyNumbers(a, b, c, d, high', port % 256);
    Opened(Commas(Dotted(a, b, c, d)) + "," + (Short(high) + "," + (Short(port % 256) + ").\r\n")));
    assert Short(high) == Decimal(high') && Short(port % 256) == Decimal(port % 256);
    assert [a, b, c, d, high', port % 256][..4] == [a, b, c, d];
  }

  lemma Opened(rest: string)
    ensures var r := "227 Entering Passive Mode (" + rest;
      Index(r, '(') == 26 && r[27..] == rest
  {
    var r := "227 Entering Passive Mode (" + rest;
    assert r[26] == '(' && forall k :: 0 <= k < 26 ==> r[k] != '(';
  }

  lemma ShortHasNoNewline(n: int)
    ensures '\n' !in Short(n)
  {
    hide Decimal;
    if n < 0 {
      DecimalDigits(-n);
    } else {
      DecimalDigits(n);
    }
  }

  /** The reply is one line with the code 227, ended by CR LF (RFC 959, section 4.2). */
  lemma ReplyIsOneLine(ip: string, port: int)
    requires '\n' !in ip
    ensures var r := Reply227(ip, port); var n := |r| - 2;
      "227 " <= r && n >= 4 && r[n..] == "\r\n" && '\n' !in r[..n]
  {
    hide Short;
    ShortHasNoNewline(port / 256);
    ShortHasNoNewline(port % 256);
    var head := "227 Entering Passive Mode (";
    var inner := Commas(ip) + "," + (Short(port / 256) + ("," + (Short(port % 256) + ").")));
    assert "227 " <= head && '\n' !in head && '\n' !in inner;
    assert Reply227(ip, port) == head + inner + "\r\n" by {
      EndOfReply(head, Commas(ip) + ",", Short(port / 256), Short(port % 256));
    }
  }

  lemma EndOfReply(head: string, host: string, high: string, low: string)
    ensures head + (host + (high + "," + (low + ").\r\n"))) == head + (host + (high + ("," + (low + ").")))) + "\r\n"
  {
    assert ").\r\n" == ")." + "\r\n";
  }

  /** The ports of TCP fit, and each of their two numbers fits its buffer. */
  lemma PortFits(port: nat)
    requires port <= 65535
    ensures |Decimal(port / 256)| < PORT_PART_LEN && |Decimal(port % 256)| < PORT_PART_LEN
  {
    DecimalLength(port / 256);
    DecimalLength(port % 256);
  }

  /** A dotted quad fits the address buffers. */
  lemma QuadFits(a: nat, b: nat, c: nat, d: nat)
    requires a < 256 && b < 256 && c < 256 && d < 256
    ensures |Dotted(a, b, c, d)| < IPLEN
  {
    hide Decimal;
    DecimalLength(a);
    DecimalLength(b);
    DecimalLength(c);
    DecimalLength(d);
  }
}
