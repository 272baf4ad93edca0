/** The RESP framing of the Redis queue (internal/state/redis_queue.go): commands are written as arrays of bulk
    strings, replies are read back from a byte stream (Redis serialization protocol specification, RESP2, "Arrays"
    and "Bulk strings").  A string is a sequence of bytes, and may hold CR and LF. */
module Resp {
  import opened Text

  const CRLF := "\r\n"

  // ---------- writing ----------

  function Header(prefix: char, n: nat): string { [prefix] + NatText(n) + CRLF }

  function Bulk(p: string): string { Header('$', |p|) + p + CRLF }

  function Bulks(parts: seq<string>): string {
    if |parts| == 0 then "" else Bulk(parts[0]) + Bulks(parts[1..])
  }

  function Command(parts: seq<string>): string { Header('*', |parts|) + Bulks(parts) }

  // ---------- reading ----------

  datatype Reply = Nil | Str(text: string) | Arr(items: seq<string>)

  /** `Crash` is the runtime panic on a length below -1, which cannot be a buffer size. */
  datatype Failure = Eof | ServerError(message: string) | BadNumber | BadElement | BadPrefix | Crash

  datatype Outcome = Got(reply: Reply) | Failed(why: Failure)

  function LineEnd(s: string): (i: nat)
    ensures i <= |s| && (i < |s| ==> s[i] == '\n') && '\n' !in s[..i]
  {
    if |s| == 0 || s[0] == '\n' then 0
    else
      assert s[..LineEnd(s[1..]) + 1] == [s[0]] + s[1..][..LineEnd(s[1..])];
      LineEnd(s[1..]) + 1
  }

  /** ReadString('\n') without the line ending; None when the stream ends first. */
  function ReadLine(s: string): (r: (Option<string>, string))
    ensures |r.1| <= |s|
  {
    var i := LineEnd(s);
    if i == |s| then (None, "")
    else (Some(if i > 0 && s[i - 1] == '\r' then s[..i - 1] else s[..i]), s[i + 1..])
  }

  /** readRESP: the outcome, and what is left of the stream. */
  function Parse(s: string): (r: (Outcome, string))
    ensures |r.1| <= |s| && (r.0.Got? ==> |r.1| < |s|)
    decreases |s|, 0
  {
    if |s| == 0 then (Failed(Eof), "")
    else
      match ReadLine(s[1..])
      case (None, _) => (Failed(Eof), "")
      case (Some(line), rest) => ParseAfter(s[0], line, rest)
  }

  /** What follows a reply's first line. */
  function ParseAfter(prefix: char, line: string, s: string): (r: (Outcome, string))
    ensures |r.1| <= |s|
    decreases |s|, 3
  {
    if prefix == '+' || prefix == ':' then (Got(Str(line)), s)
    else if prefix == '-' then (Failed(ServerError(line)), s)
    else if prefix == '$' then ParseBulk(ParseInt(line), s)
    else if prefix == '*' then ParseArray(ParseInt(line), s)
    else (Failed(BadPrefix), s)
  }

  function ParseArray(len: Option<int>, s: string): (r: (Outcome, string))
    ensures |r.1| <= |s|
    decreases |s|, 2
  {
    match len
    case None => (Failed(BadNumber), s)
    case Some(n) =>
      if n == -1 then (Got(Nil), s)
      else if n < 0 then (Failed(Crash), s)
      else ParseItems(n, [], s)
  }

  function ParseBulk(len: Option<int>, s: string): (r: (Outcome, string))
    ensures |r.1| <= |s|
  {
    match len
    case None => (Failed(BadNumber), s)
    case Some(n) =>
      if n == -1 then (Got(Nil), s)
      else if n < 0 then (Failed(Crash), s)
      else if |s| < n + 2 then (Failed(Eof), "")
      else (Got(Str(s[..n])), s[n + 2..])
  }

  /** The rest of an array: n more elements after those in acc. */
  function ParseItems(n: nat, acc: seq<string>, s: string): (r: (Outcome, string))
    ensures |r.1| <= |s|
    decreases |s|, 1, n
  {
    if n == 0 then (Got(Arr(acc)), s)
    else
      var (o, rest) := Parse(s);
      match o
      case Failed(_) => (o, rest)
      case Got(Nil) => ParseItems(n - 1, acc + [""], rest)
      case Got(Str(t)) => ParseItems(n - 1, acc + [t], rest)
      case Got(Arr(_)) => (Failed(BadElement), rest)
  }

  // ---------- the stream, in place ----------

  class Conn {
    var input: string
    var output: string

    method WriteResp(parts: seq<string>)
      modifies this`output
      ensures output == old(output) + Command(parts)
    {
      output := output + Header('*', |parts|);
      for i := 0 to |parts|
        invariant output + Bulks(parts[i..]) == old(output) + Command(parts)
      {
        assert parts[i..][1..] == parts[i + 1..];
        output := output + Bulk(parts[i]);
      }
    }

    method ReadString() returns (line: Option<string>)
      modifies this`input
      ensures (line, input) == ReadLine(old(input))
    {
      var i := 0;
      while i < |input| && input[i] != '\n'
        invariant i <= |input| && LineEnd(input) == i + LineEnd(input[i..])
      {
        assert input[i..][1..] == input[i + 1..];
        i := i + 1;
      }
      if i == |input| {
        input := "";
        return None;
      }
      line := Some(if i > 0 && input[i - 1] == '\r' then input[..i - 1] else input[..i]);
      input := input[i + 1..];
    }

    method ReadResp() returns (o: Outcome)
      modifies this`input
      ensures (o, input) == Parse(old(input))
      decreases |input|, 0
    {
      if |input| == 0 {
        return Failed(Eof);
      }
      var prefix := input[0];
      input := input[1..];
      var line := ReadString();
      if line.None? {
        return Failed(Eof);
      }
      if prefix == '+' || prefix == ':' {
        return Got(Str(line.value));
      } else if prefix == '-' {
        return Failed(ServerError(line.value));
      } else if prefix == '$' {
        o := ReadBulk(ParseInt(line.value));
      } else if prefix == '*' {
        o := ReadArray(ParseInt(line.value));
      } else {
        return Failed(BadPrefix);
      }
    }

    method ReadBulk(len: Option<int>) returns (o: Outcome)
      modifies this`input
      ensures (o, input) == ParseBulk(len, old(input))
    {
      if len.None? {
        return Failed(BadNumber);
      }
      var n := len.value;
      if n == -1 {
        return Got(Nil);
      } else if n < 0 {
        return Failed(Crash);
      } else if |input| < n + 2 {
        input := "";
        return Failed(Eof);
      }
      o := Got(Str(input[..n]));
      input := input[n + 2..];
    }

    method ReadArray(len: Option<int>) returns (o: Outcome)
      modifies this`input
      ensures (o, input) == ParseArray(len, old(input))
      decreases |input|, 1
    {
      if len.None? {
        return Failed(BadNumber);
      }
      var n := len.value;
      if n == -1 {
        return Got(Nil);
      } else if n < 0 {
        return Failed(Crash);
      }
      var arr := [];
      for i := 0 to n
        invariant |input| <= |old(input)|
        invariant ParseItems(n - i, arr, input) == ParseArray(len, old(input))
      {
        var v := ReadResp();
        match v {
          case Failed(_) => return v;
          case Got(Nil) => arr := arr + [""];
          case Got(Str(t)) => arr := arr + [t];
          case Got(Arr(_)) => return Failed(BadElement);
        }
      }
      return Got(Arr(arr));
    }
  }

  // ---------- the round trip ----------

  /** Lengths fit Go's int. */
  predicate Fits(parts: seq<string>) {
    |parts| <= INT64_MAX && forall i :: 0 <= i < |parts| ==> |parts[i]| <= INT64_MAX
  }

  lemma {:induction false} LineEndAfter(text: string, rest: string)
    requires '\n' !in text
    ensures LineEnd(text + CRLF + rest) == |text| + 1
  {
    var s := text + CRLF + rest;
    if |text| == 0 {
      assert s[0] == '\r' && s[1..][0] == '\n';
    } else {
      assert s[0] == text[0] && s[1..] == text[1..] + CRLF + rest;
      LineEndAfter(text[1..], rest);
    }
  }

  lemma ReadHeaderLine(n: nat, rest: string)
    ensures ReadLine(NatText(n) + CRLF + rest) == (Some(NatText(n)), rest)
  {
    var text := NatText(n);
    var s := text + CRLF + rest;
    assert '\n' !in text;
    LineEndAfter(text, rest);
    assert s[|text|] == '\r' && s[..|text|] == text && s[|text| + 2..] == rest;
  }

  lemma ReadLength(n: nat)
    requires n <= INT64_MAX
    ensures ParseInt(NatText(n)) == Some(n)
  {
    ParseNatText(n);
    ParseUnsigned(NatText(n), n);
  }

  lemma ParseHeader(prefix: char, n: nat, body: string)
    requires n <= INT64_MAX
    ensures Parse(Header(prefix, n) + body) == ParseAfter(prefix, NatText(n), body)
    ensures ParseInt(NatText(n)) == Some(n)
  {
    hide ParseAfter, LineEnd, ParseNat, ParseInt;
    var s := Header(prefix, n) + body;
    ReadHeaderLine(n, body);
    assert s[0] == prefix && s[1..] == NatText(n) + CRLF + body;
    ReadLength(n);
  }

  /** A bulk string is read back whole, whatever bytes it holds, and nothing beyond it is consumed. */
  lemma BulkRoundTrip(p: string, rest: string)
    requires |p| <= INT64_MAX
    ensures Parse(Bulk(p) + rest) == (Got(Str(p)), rest)
  {
    hide Parse, ParseInt, Header;
    var body := p + CRLF + rest;
    assert Bulk(p) + rest == Header('$', |p|) + body;
    ParseHeader('$', |p|, body);
    assert body[..|p|] == p && body[|p| + 2..] == rest;
  }

  lemma {:induction false} ItemsRoundTrip(parts: seq<string>, acc: seq<string>, rest: string)
    requires Fits(parts)
    ensures ParseItems(|parts|, acc, Bulks(parts) + rest) == (Got(Arr(acc + parts)), rest)
  {
    hide Parse, Bulk;
    if |parts| == 0 {
      assert "" + rest == rest && acc + parts == acc;
    } else {
      var tail := Bulks(parts[1..]) + rest;
      assert Bulks(parts) + rest == Bulk(parts[0]) + tail;
      BulkRoundTrip(parts[0], tail);
      ItemsRoundTrip(parts[1..], acc + [parts[0]], rest);
      assert acc + [parts[0]] + parts[1..] == acc + parts;
    }
  }

  /** Reading what was written gives the same strings back and consumes exactly those bytes. */
  lemma CommandRoundTrip(parts: seq<string>, rest: string)
    requires Fits(parts)
    ensures Parse(Command(parts) + rest) == (Got(Arr(parts)), rest)
  {
    hide Parse, ParseInt, Header, Bulks;
    var body := Bulks(parts) + rest;
    assert Command(parts) + rest == Header('*', |parts|) + body;
    ParseHeader('*', |parts|, body);
    ItemsRoundTrip(parts, [], rest);
    assert [] + parts == parts;
  }

  /** The bytes of several commands, one after another. */
  function Stream(commands: seq<seq<string>>): string {
    if |commands| == 0 then "" else Command(commands[0]) + Stream(commands[1..])
  }

  /** Reads n replies in a row. */
  function ReadMany(n: nat, s: string): (seq<Outcome>, string)
    decreases n
  {
    if n == 0 then ([], s)
    else
      var (o, rest) := Parse(s);
      var (more, end) := ReadMany(n - 1, rest);
      ([o] + more, end)
  }

  function Answers(commands: seq<seq<string>>): seq<Outcome> {
    if |commands| == 0 then [] else [Got(Arr(commands[0]))] + Answers(commands[1..])
  }

  /** A stream of commands reads back in order, with nothing lost, merged or left over. */
  lemma {:induction false} StreamRoundTrip(commands: seq<seq<string>>, rest: string)
    requires forall i :: 0 <= i < |commands| ==> Fits(commands[i])
    ensures ReadMany(|commands|, Stream(commands) + rest) == (Answers(commands), rest)
  {
    if |commands| == 0 {
      assert "" + rest == rest;
    } else {
      var tail := Stream(commands[1..]) + rest;
      assert Stream(commands) + rest == Command(commands[0]) + tail;
      CommandRoundTrip(commands[0], tail);
      StreamRoundTrip(commands[1..], rest);
    }
  }

  /** No command is a prefix of a different one: where one ends cannot depend on what follows. */
  lemma CommandsSelfDelimiting(a: seq<string>, b: seq<string>, afterA: string, afterB: string)
    requires Fits(a) && Fits(b) && Command(a) + afterA == Command(b) + afterB
    ensures a == b && afterA == afterB
  {
    CommandRoundTrip(a, afterA);
    CommandRoundTrip(b, afterB);
  }

  // ---------- the bytes on the wire ----------

  /** What a command of one word looks like. */
  lemma CommandBytes()
    ensures Command(["PING"]) == "*1\r\n$4\r\nPING\r\n"
  {
    assert NatText(1) == "1" && NatText(4) == "4";
    assert Header('*', 1) == "*1\r\n";
    assert Bulk("PING") == "$4\r\nPING\r\n" by { assert Header('$', 4) == "$4\r\n"; }
    assert ["PING"][1..] == [];
    assert Bulks(["PING"]) == Bulk("PING") + "";
  }

  lemma ParseLine(prefix: char, line: string, rest: string)
    requires '\n' !in line
    ensures Parse([prefix] + line + "\r\n" + rest) == ParseAfter(prefix, line, rest)
  {
    hide ParseAfter, LineEnd;
    var s := [prefix] + line + CRLF + rest;
    LineEndAfter(line, rest);
    var t := line + CRLF + rest;
    assert s[0] == prefix && s[1..] == t;
    assert t[|line|] == '\r' && t[..|line|] == line && t[|line| + 2..] == rest;
  }

  /** The other replies a server sends: a status, a number, an error, and nothing at all. */
  lemma RepliesRead(line: string, rest: string)
    requires '\n' !in line
    ensures Parse("+" + line + "\r\n" + rest) == (Got(Str(line)), rest)
    ensures Parse(":" + line + "\r\n" + rest) == (Got(Str(line)), rest)
    ensures Parse("-" + line + "\r\n" + rest) == (Failed(ServerError(line)), rest)
    ensures Parse("$-1\r\n" + rest) == Parse("*-1\r\n" + rest) == (Got(Nil), rest)
  {
    hide Parse, ParseInt;
    ParseLine('+', line, rest);
    ParseLine(':', line, rest);
    ParseLine('-', line, rest);
    MinusOne();
    ParseLine('$', "-1", rest);
    ParseLine('*', "-1", rest);
    assert "$-1\r\n" + rest == "$" + "-1" + "\r\n" + rest;
    assert "*-1\r\n" + rest == "*" + "-1" + "\r\n" + rest;
  }

  lemma MinusOne()
    ensures ParseInt("-1") == Some(-1)
  {
    assert NatText(1) == "1" && IntText(-1) == "-1";
    ParseIntText(-1);
  }
}
