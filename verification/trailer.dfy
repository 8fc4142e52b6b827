// executor/trailer.go: ParseTrailer, as far as the status code and the raw
// header values. The JSON decoder is a parameter.
module Trailer {
  import opened Text
  import opened Wrappers

  datatype Status = Status(code: int, message: string, details: string)

  // A parsed Connect end-of-stream frame; `debug` is the error of its first detail.
  datatype EndStream = NotJson | NoError | Error(code: string, message: string, debug: string)

  // ---------- lines ----------

  // strings.Split(text, "\n")
  function Lines(text: string): (r: seq<string>)
    ensures r != []
  {
    if text == "" then [""]
    else Extend(Lines(text[..|text| - 1]), text[|text| - 1])
  }

  // strings.ReplaceAll(text, "\r\n", "\n"); occurrences of "\r\n" never overlap
  function DropCarriageReturns(text: string): string {
    var n := |text|;
    if n == 0 then ""
    else if n >= 2 && text[n - 2..] == "\r\n" then DropCarriageReturns(text[..n - 2]) + "\n"
    else DropCarriageReturns(text[..n - 1]) + [text[n - 1]]
  }

  // The same lines up to white space around them.
  ghost predicate SameTrimmed(a: seq<string>, b: seq<string>) {
    |a| == |b| && forall i | 0 <= i < |a| :: TrimSpace(a[i]) == TrimSpace(b[i])
  }

  lemma {:induction false} TrimLeftSnoc(s: string, c: char)
    ensures TrimLeft(s + [c]) == if TrimLeft(s) == "" && IsSpace(c) then "" else if TrimLeft(s) == "" then [c] else TrimLeft(s) + [c]
  {
    if s == "" {
      assert s + [c] == [c] && [c][1..] == "";
      assert TrimLeft([c]) == if IsSpace(c) then TrimLeft([c][1..]) else [c];
    } else if IsSpace(s[0]) {
      assert (s + [c])[1..] == s[1..] + [c];
      TrimLeftSnoc(s[1..], c);
    }
  }

  lemma {:induction false} TrimSnocSpace(s: string, c: char)
    requires IsSpace(c)
    ensures TrimSpace(s + [c]) == TrimSpace(s)
  {
    TrimLeftSnoc(s, c);
    var l := TrimLeft(s);
    assert (l + [c])[..|l|] == l;
  }

  // The same lines so far, and the line being read alike.
  ghost predicate Alike(a: seq<string>, b: seq<string>) {
    a != [] && SameTrimmed(a, b) && a[|a| - 1] == b[|b| - 1]
  }

  function Extend(lines: seq<string>, c: char): seq<string>
    requires lines != []
  {
    if c == '\n' then lines + [""] else lines[..|lines| - 1] + [lines[|lines| - 1] + [c]]
  }

  lemma {:induction false} ExtendBoth(a: seq<string>, b: seq<string>, c: char)
    requires Alike(a, b)
    ensures Alike(Extend(a, c), Extend(b, c))
  {
  }

  // A carriage return at the end of a line is trimmed away.
  lemma {:induction false} ExtendCrLf(a: seq<string>, b: seq<string>)
    requires Alike(a, b)
    ensures Alike(Extend(a, '\n'), Extend(Extend(b, '\r'), '\n'))
  {
    TrimSnocSpace(b[|b| - 1], '\r');
    var n := |b| - 1;
    var longer := Extend(b, '\r');
    assert |longer| == |b| && longer[n] == b[n] + ['\r'] && forall i | 0 <= i < n :: longer[i] == b[i];
  }

  lemma {:induction false} CrLfStep(u: string)
    requires Alike(Lines(DropCarriageReturns(u)), Lines(u))
    ensures Alike(Lines(DropCarriageReturns((u + ['\r']) + ['\n'])), Lines((u + ['\r']) + ['\n']))
  {
    DropCrLf(u);
    LinesSnoc(u, '\r');
    LinesSnoc(u + ['\r'], '\n');
    LinesSnoc(DropCarriageReturns(u), '\n');
    ExtendCrLf(Lines(DropCarriageReturns(u)), Lines(u));
  }

  lemma {:induction false} DropCrLf(u: string)
    ensures DropCarriageReturns((u + ['\r']) + ['\n']) == DropCarriageReturns(u) + ['\n']
  {
    var text := (u + ['\r']) + ['\n'];
    assert text[|text| - 2..] == "\r\n" && text[..|text| - 2] == u;
  }

  lemma {:induction false} EndsInCrLf(text: string)
    requires |text| >= 2 && text[|text| - 2..] == "\r\n"
    ensures text == (text[..|text| - 2] + ['\r']) + ['\n']
  {
    assert text[|text| - 2] == text[|text| - 2..][0] && text[|text| - 1] == text[|text| - 2..][1];
  }

  lemma {:induction false} PlainStep(u: string, c: char)
    requires Alike(Lines(DropCarriageReturns(u)), Lines(u))
    requires DropCarriageReturns(u + [c]) == DropCarriageReturns(u) + [c]
    ensures Alike(Lines(DropCarriageReturns(u + [c])), Lines(u + [c]))
  {
    LinesSnoc(u, c);
    LinesSnoc(DropCarriageReturns(u), c);
    ExtendBoth(Lines(DropCarriageReturns(u)), Lines(u), c);
  }

  lemma {:induction false} LinesKeepTheirText(text: string)
    ensures Alike(Lines(DropCarriageReturns(text)), Lines(text))
    decreases |text|
  {
    var n := |text|;
    if n == 0 {
    } else if n >= 2 && text[n - 2..] == "\r\n" {
      LinesKeepTheirText(text[..n - 2]);
      EndsInCrLf(text);
      CrLfStep(text[..n - 2]);
    } else {
      LinesKeepTheirText(text[..n - 1]);
      assert text == text[..n - 1] + [text[n - 1]];
      PlainStep(text[..n - 1], text[n - 1]);
    }
  }

  lemma {:induction false} LinesSnoc(text: string, c: char)
    ensures Lines(text + [c]) == Extend(Lines(text), c)
  {
    assert (text + [c])[..|text|] == text;
  }

  function Joined(lines: seq<string>): string
    requires lines != []
  {
    if |lines| == 1 then lines[0] else Joined(lines[..|lines| - 1]) + "\n" + lines[|lines| - 1]
  }

  // The lines hold no line feed, and joined by line feeds they are the text.
  lemma {:induction false} LinesAreTheText(text: string)
    ensures Joined(Lines(text)) == text && forall line | line in Lines(text) :: '\n' !in line
  {
    if text != "" {
      var n := |text| - 1;
      LinesAreTheText(text[..n]);
      assert text == text[..n] + [text[n]];
      JoinedExtend(Lines(text[..n]), text[n]);
      ExtendLineFeeds(Lines(text[..n]), text[n]);
    }
  }

  lemma {:induction false} JoinedExtend(lines: seq<string>, c: char)
    requires lines != []
    ensures Joined(Extend(lines, c)) == Joined(lines) + [c]
  {
    var n := |lines| - 1;
    if c == '\n' {
      assert (lines + [""])[..n + 1] == lines;
      assert Joined(lines) + "\n" + "" == Joined(lines) + [c];
    } else {
      assert Extend(lines, c)[..n] == lines[..n];
      if n > 0 { assert Joined(lines[..n]) + "\n" + (lines[n] + [c]) == Joined(lines) + [c]; }
    }
  }

  lemma {:induction false} ExtendLineFeeds(lines: seq<string>, c: char)
    requires lines != [] && forall line | line in lines :: '\n' !in line
    ensures forall line | line in Extend(lines, c) :: '\n' !in line
  {
    assert lines[|lines| - 1] in lines;
  }

  // ---------- the headers ----------

  // The key and value of a trimmed line; a line without a colon has no key.
  function Key(line: string): string {
    var i := Index(line, ":");
    if i < 0 then "" else ToLower(TrimSpace(line[..i]))
  }

  function Value(line: string): string {
    var i := Index(line, ":");
    if i < 0 then "" else TrimSpace(line[i + 1..])
  }

  function Header(t: Status, line: string): Status {
    var key, value := Key(line), Value(line);
    if key == "grpc-status" then
      (match Atoi(value) case Some(n) => t.(code := n) case None => t)
    else if key == "grpc-message" then t.(message := value)
    else if key == "grpc-status-details-bin" then t.(details := value)
    else t
  }

  // A header is what stands before the first colon, in any letter case, and
  // what stands behind it, both without white space around them.
  lemma {:induction false} HeaderLine(name: string, value: string)
    requires ':' !in name
    ensures Key(name + ":" + value) == ToLower(TrimSpace(name))
    ensures Value(name + ":" + value) == TrimSpace(value)
  {
    var line := name + ":" + value;
    IndexIsFirst(line, ":");
    var i := Index(line, ":");
    assert OccursAt(line, ":", |name|) by { assert line[|name|..|name| + 1] == ":"; }
    assert forall j | 0 <= j < |name| :: line[j] == name[j] && name[j] in name;
    assert line[..|name|] == name && line[|name| + 1..] == value;
  }

  lemma {:induction false} NoHeader(line: string)
    requires ':' !in line
    ensures Key(line) == "" && Value(line) == ""
  {
    IndexIsFirst(line, ":");
    assert forall j | 0 <= j < |line| && OccursAt(line, ":", j) :: line[j..j + 1][0] == line[j] && line[j] in line;
  }

  function Headers(lines: seq<string>): Status {
    if lines == [] then Status(0, "", "") else Header(Headers(lines[..|lines| - 1]), TrimSpace(lines[|lines| - 1]))
  }

  lemma {:induction false} HeadersByTrimmed(a: seq<string>, b: seq<string>)
    requires SameTrimmed(a, b)
    ensures Headers(a) == Headers(b)
  {
    if a != [] {
      HeadersByTrimmed(a[..|a| - 1], b[..|b| - 1]);
    }
  }

  // Line ends do not matter: CRLF, LF or a mixture give one result.
  lemma {:induction false} LineEndsDoNotMatter(text: string)
    ensures Headers(Lines(DropCarriageReturns(text))) == Headers(Lines(text))
  {
    LinesKeepTheirText(text);
    HeadersByTrimmed(Lines(DropCarriageReturns(text)), Lines(text));
  }

  predicate SetsCode(line: string) {
    Key(line) == "grpc-status" && Atoi(Value(line)).Some?
  }

  // The code of the last readable grpc-status line; without one the trailer
  // counts as a success.
  function LastCode(lines: seq<string>): int {
    if lines == [] then 0
    else if SetsCode(TrimSpace(lines[|lines| - 1])) then Atoi(Value(TrimSpace(lines[|lines| - 1]))).value
    else LastCode(lines[..|lines| - 1])
  }

  lemma {:induction false} CodeIsLastReadable(lines: seq<string>)
    ensures Headers(lines).code == LastCode(lines)
  {
    if lines != [] {
      CodeIsLastReadable(lines[..|lines| - 1]);
      HeaderCode(Headers(lines[..|lines| - 1]), TrimSpace(lines[|lines| - 1]));
    }
  }

  lemma {:induction false} HeaderCode(t: Status, line: string)
    ensures if SetsCode(line) then Atoi(Value(line)) == Some(Header(t, line).code) else Header(t, line).code == t.code
  {
  }

  // The value of the last header with this key; "" if there is none.
  function LastValue(lines: seq<string>, key: string): string {
    if lines == [] then ""
    else if Key(TrimSpace(lines[|lines| - 1])) == key then Value(TrimSpace(lines[|lines| - 1]))
    else LastValue(lines[..|lines| - 1], key)
  }

  // Message and details are those of their own last lines.
  lemma {:induction false} TextsAreLast(lines: seq<string>)
    ensures Headers(lines).message == LastValue(lines, "grpc-message")
    ensures Headers(lines).details == LastValue(lines, "grpc-status-details-bin")
  {
    if lines != [] { TextsAreLast(lines[..|lines| - 1]); }
  }

  // ---------- both forms ----------

  // connectCodeNumber
  function ConnectCode(code: string): int {
    match ToLower(code)
    case "ok" => 0
    case "" => 0
    case "resource_exhausted" => 8
    case "unauthenticated" => 16
    case "permission_denied" => 7
    case "unavailable" => 14
    case "deadline_exceeded" => 4
    case "invalid_argument" => 3
    case _ => 13
  }

  // parseConnectEndStream
  function ConnectStatus(raw: string, json: string -> EndStream): Status {
    match json(raw)
    case NotJson => Status(13, raw, "")
    case NoError => Status(0, "", "")
    case Error(code, message, debug) =>
      var useDebug := debug != "" && (message == "" || EqualFold(message, "error"));
      Status(ConnectCode(code), if useDebug then debug else message, "")
  }

  // The codes by name, in any letter case; no other name reads as one of them.
  lemma {:induction false} ConnectCodes(code: string)
    ensures ConnectCode(code) == 0 <==> EqualFold(code, "OK") || code == ""
    ensures ConnectCode(code) == 3 <==> EqualFold(code, "INVALID_ARGUMENT")
    ensures ConnectCode(code) == 4 <==> EqualFold(code, "DEADLINE_EXCEEDED")
    ensures ConnectCode(code) == 7 <==> EqualFold(code, "PERMISSION_DENIED")
    ensures ConnectCode(code) == 8 <==> EqualFold(code, "RESOURCE_EXHAUSTED")
    ensures ConnectCode(code) == 14 <==> EqualFold(code, "UNAVAILABLE")
    ensures ConnectCode(code) == 16 <==> EqualFold(code, "UNAUTHENTICATED")
    ensures ConnectCode(code) in {0, 3, 4, 7, 8, 13, 14, 16}
  {
    UpperNames();
    MoreUpperNames();
    LastUpperNames();
  }

  lemma {:induction false} UpperNames()
    ensures ToLower("OK") == "ok" && ToLower("INVALID_ARGUMENT") == "invalid_argument"
    ensures ToLower("DEADLINE_EXCEEDED") == "deadline_exceeded"
  {
  }

  lemma {:induction false} MoreUpperNames()
    ensures ToLower("PERMISSION_DENIED") == "permission_denied"
    ensures ToLower("RESOURCE_EXHAUSTED") == "resource_exhausted"
  {
  }

  lemma {:induction false} LastUpperNames()
    ensures ToLower("UNAVAILABLE") == "unavailable" && ToLower("UNAUTHENTICATED") == "unauthenticated"
  {
  }

  // What a Connect end of stream tells: text that is not JSON is itself the
  // message; an error tells its own message, unless that says nothing and the
  // first detail has one.
  lemma {:induction false} ConnectMessages(raw: string, json: string -> EndStream)
    ensures var t, e := ConnectStatus(raw, json), json(raw);
      && t.details == ""
      && (e.NotJson? ==> t.code == 13 && t.message == raw)
      && (e.NoError? ==> t.code == 0 && t.message == "")
      && (e.Error? ==> t.code == ConnectCode(e.code) && t.message in {e.message, e.debug})
      && (e.Error? && e.message != "" && !EqualFold(e.message, "error") ==> t.message == e.message)
      && (e.Error? && e.debug != "" && (e.message == "" || e.message == "ERROR" || e.message == "error") ==> t.message == e.debug)
      && (e.Error? && t.message == "" ==> e.message == "" && e.debug == "")
  {
    assert ToLower("ERROR") == "error" == ToLower("error");
  }

  function ParseTrailer(raw: string, json: string -> EndStream): Option<Status> {
    if raw == "" then None
    else if raw[0] == '{' then Some(ConnectStatus(raw, json))
    else Some(Headers(Lines(raw)))
  }

  // OK
  predicate Ok(t: Option<Status>) {
    t.None? || t.value.code == 0
  }

  // When a stream counts as ended well: an empty trailer, a Connect frame without
  // an error or whose error has the code "ok" or none, or headers whose last
  // readable status is 0.
  lemma {:induction false} OkExactly(raw: string, json: string -> EndStream)
    ensures Ok(ParseTrailer(raw, json)) <==>
      || raw == ""
      || (raw[0] == '{' && (json(raw).NoError? || (json(raw).Error? && ToLower(json(raw).code) in ["ok", ""])))
      || (raw[0] != '{' && LastCode(Lines(raw)) == 0)
  {
    if raw != "" && raw[0] != '{' { CodeIsLastReadable(Lines(raw)); }
  }

  // ---------- the loop ----------

  method ParseHeader(t: Status, line: string) returns (status: Status)
    ensures status == Header(t, line)
  {
    status := t;
    var i := Index(line, ":");
    if i < 0 {
      return;
    }
    var key := ToLower(TrimSpace(line[..i]));
    var val := TrimSpace(line[i + 1..]);
    if key == "grpc-status" {
      var n := Atoi(val);
      if n.Some? {
        status := status.(code := n.value);
      }
    } else if key == "grpc-message" {
      status := status.(message := val);
    } else if key == "grpc-status-details-bin" {
      status := status.(details := val);
    }
  }

  lemma {:induction false} EmptyLineSetsNothing(t: Status)
    ensures Header(t, "") == t
  {
    IndexIsFirst("", ":");
  }

  method ParseTrailerText(raw: string, json: string -> EndStream) returns (t: Option<Status>)
    ensures t == ParseTrailer(raw, json)
  {
    if |raw| == 0 {
      return None;
    }
    if raw[0] == '{' {
      return Some(ConnectStatus(raw, json));
    }
    var lines := Lines(DropCarriageReturns(raw));
    var status := Status(0, "", "");
    for k := 0 to |lines|
      invariant status == Headers(lines[..k])
    {
      assert lines[..k + 1][..k] == lines[..k];
      var line := TrimSpace(lines[k]);
      if line == "" {
        EmptyLineSetsNothing(status);
        continue;
      }
      status := ParseHeader(status, line);
    }
    assert lines[..|lines|] == lines;
    LineEndsDoNotMatter(raw);
    t := Some(status);
  }
}
