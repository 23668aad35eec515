/**
 HTTP/1.1 request framing (`src/bridge.rs`) as functions on the bytes still unread: what one
 read takes and what it leaves. Bytes are characters below 256.
 */
module Http {
  import opened Options
  import opened Text

  const MAX_HEAD_BYTES: nat := 64 * 1024
  const MAX_HEADERS: nat := 100
  const MAX_BODY_BYTES: nat := 64 * 1024 * 1024
  const MAX_SIZE_LINE: nat := 1024
  const USIZE_MAX: nat := 0xFFFF_FFFF_FFFF_FFFF

  /** A value and the bytes after it, a lost connection, a refusal with this status, or an
      overflow that ends the connection's thread without an answer. */
  datatype Outcome<+T> = Ok(value: T, rest: string) | Closed | Bad(status: nat) | Crash

  /** The same failure of a larger read. */
  function Fail<T, U>(o: Outcome<T>): (r: Outcome<U>)
    requires !o.Ok?
    ensures !r.Ok? && (r.Crash? <==> o.Crash?)
  {
    match o
    case Closed => Closed
    case Bad(status) => Bad(status)
    case Crash => Crash
  }

  type Header = (string, string)

  datatype Head = Head(verb: string, target: string, version: string, headers: seq<Header>)

  datatype Request = Request(
    verb: string, target: string, headers: seq<Header>, body: string, close: bool, drain: bool)

  /** `rest` is the end of `s`. */
  predicate Ends(s: string, rest: string) {
    |rest| <= |s| && s[|s| - |rest|..] == rest
  }

  lemma EndsThrough(a: string, b: string, c: string)
    requires Ends(a, b) && Ends(b, c)
    ensures Ends(a, c)
  {
    assert a[|a| - |c|..] == a[|a| - |b|..][|b| - |c|..];
  }

  // ---------- characters ----------

  predicate Between(s: string, i: nat, low: int, high: int) {
    i < |s| && low <= s[i] as int <= high
  }

  predicate Follows(s: string, i: nat) { Between(s, i, 0x80, 0xBF) }

  /** Well-formed UTF-8 (section 4 of RFC 3629). */
  predicate Utf8(s: string) {
    if s == "" then true
    else if s[0] as int < 0x80 then Utf8(s[1..])
    else if Between(s, 0, 0xC2, 0xDF) then Follows(s, 1) && Utf8(s[2..])
    else if Between(s, 0, 0xE0, 0xEF) then
      Between(s, 1, if s[0] as int == 0xE0 then 0xA0 else 0x80, if s[0] as int == 0xED then 0x9F else 0xBF)
      && Follows(s, 2) && Utf8(s[3..])
    else
      Between(s, 0, 0xF0, 0xF4)
      && Between(s, 1, if s[0] as int == 0xF0 then 0x90 else 0x80, if s[0] as int == 0xF4 then 0x8F else 0xBF)
      && Follows(s, 2) && Follows(s, 3) && Utf8(s[4..])
  }

  /** The UTF-8 form of one white-space character, as `str::trim` knows them. */
  predicate White(s: string) {
    if |s| == 1 then s[0] == ' ' || 9 <= s[0] as int <= 13
    else if |s| == 2 then s[0] as int == 0xC2 && (s[1] as int == 0x85 || s[1] as int == 0xA0)
    else if |s| == 3 then
      var a, b, c := s[0] as int, s[1] as int, s[2] as int;
      (a == 0xE1 && b == 0x9A && c == 0x80)
      || (a == 0xE2 && b == 0x80 && (0x80 <= c <= 0x8A || c == 0xA8 || c == 0xA9 || c == 0xAF))
      || (a == 0xE2 && b == 0x81 && c == 0x9F)
      || (a == 0xE3 && b == 0x80 && c == 0x80)
    else false
  }

  function TrimStart(s: string): string {
    if |s| >= 1 && White(s[..1]) then TrimStart(s[1..])
    else if |s| >= 2 && White(s[..2]) then TrimStart(s[2..])
    else if |s| >= 3 && White(s[..3]) then TrimStart(s[3..])
    else s
  }

  function TrimEnd(s: string): string {
    if |s| >= 1 && White(s[|s| - 1..]) then TrimEnd(s[..|s| - 1])
    else if |s| >= 2 && White(s[|s| - 2..]) then TrimEnd(s[..|s| - 2])
    else if |s| >= 3 && White(s[|s| - 3..]) then TrimEnd(s[..|s| - 3])
    else s
  }

  function Trim(s: string): string { TrimEnd(TrimStart(s)) }

  function LowerChar(c: char): char {
    if 'A' <= c <= 'Z' then c + ('a' - 'A') else c
  }

  function Lower(s: string): string {
    seq(|s|, i requires 0 <= i < |s| => LowerChar(s[i]))
  }

  predicate Contains(s: string, part: string) {
    part <= s || (s != "" && Contains(s[1..], part))
  }

  function HexDigit(c: char): int {
    if '0' <= c <= '9' then (c - '0') as int
    else if 'a' <= c <= 'f' then (c - 'a') as int + 10
    else if 'A' <= c <= 'F' then (c - 'A') as int + 10
    else -1
  }

  /** `from_str_radix`: digits after an optional plus sign, within a machine word. */
  function ParseSize(s: string, radix: nat): Option<nat>
    requires radix == 10 || radix == 16
  {
    var digits := if s != "" && s[0] == '+' then s[1..] else s;
    if digits == "" then None
    else
      var v := Value(digits, radix);
      if v.None? || v.value > USIZE_MAX then None else v
  }

  function Value(s: string, radix: nat): Option<nat> {
    if s == "" then Some(0)
    else
      var most, d := Value(s[..|s| - 1], radix), HexDigit(s[|s| - 1]);
      if most.None? || d < 0 || d >= radix then None else Some(most.value * radix + d)
  }

  // ---------- one line ----------

  function Strip(line: string): string {
    if line != "" && line[|line| - 1] in {'\n', '\r'} then Strip(line[..|line| - 1]) else line
  }

  function Min(a: nat, b: nat): nat { if a <= b then a else b }

  /** How many bytes `read_until` takes: through the newline, to the end, or to the limit. */
  function Taken(s: string, budget: nat): (n: nat)
    ensures n <= |s| && n <= budget + 1
  {
    var n := IndexOf(s, '\n');
    Min(if n < |s| then n + 1 else n, budget + 1)
  }

  /** One line without its ending; `None` at the end of the input. */
  function ReadLine(s: string, budget: nat): (r: Outcome<Option<string>>)
    ensures r.Ok? ==> Ends(s, r.rest) && |s| - |r.rest| <= budget
    ensures r.Ok? && r.value.Some? ==> |r.rest| < |s|
    ensures !r.Crash?
  {
    var n := Taken(s, budget);
    if n == 0 then Ok(None, s)
    else if n > budget then Bad(431)
    else if s[n - 1] != '\n' then Closed
    else
      var line := Strip(s[..n]);
      if Utf8(line) then Ok(Some(line), s[n..]) else Bad(400)
  }

  /** What is left of a budget after reading from `s` to `rest`. */
  function Left(budget: nat, s: string, rest: string): nat
    requires |rest| <= |s| && |s| - |rest| <= budget
  {
    budget - (|s| - |rest|)
  }

  // ---------- the head ----------

  /** The request line; blank lines before it are allowed. */
  function ReadFirst(s: string, budget: nat): (r: Outcome<string>)
    ensures r.Ok? ==> Ends(s, r.rest) && |r.rest| < |s| && |s| - |r.rest| <= budget
    ensures !r.Crash?
    decreases |s|
  {
    var line := ReadLine(s, budget);
    if !line.Ok? then Fail(line)
    else if line.value.None? then Closed
    else if line.value.value != "" then Ok(line.value.value, line.rest)
    else
      var r := ReadFirst(line.rest, Left(budget, s, line.rest));
      assert r.Ok? ==> Ends(s, r.rest) by { if r.Ok? { EndsThrough(s, line.rest, r.rest); } }
      r
  }

  function Split(s: string, c: char): Option<(string, string)> {
    var i := IndexOf(s, c);
    if i == |s| then None else Some((s[..i], s[i + 1..]))
  }

  /** Exactly three parts between single spaces. */
  function SplitThree(line: string): Option<(string, string, string)> {
    var a := Split(line, ' ');
    if a.None? then None
    else
      var b := Split(a.value.1, ' ');
      if b.None? || ' ' in b.value.1 then None else Some((a.value.0, b.value.0, b.value.1))
  }

  function Normal(name: string, value: string): Header {
    (Lower(Trim(name)), Trim(value))
  }

  function ReadHeaders(s: string, budget: nat, headers: seq<Header>): (r: Outcome<seq<Header>>)
    requires |headers| <= MAX_HEADERS
    ensures r.Ok? ==> Ends(s, r.rest) && |s| - |r.rest| <= budget && |r.value| <= MAX_HEADERS
    ensures !r.Crash?
    decreases |s|
  {
    var line := ReadLine(s, budget);
    if !line.Ok? then Fail(line)
    else if line.value.None? then Closed
    else if line.value.value == "" then Ok(headers, line.rest)
    else if |headers| >= MAX_HEADERS then Bad(431)
    else
      var parts := Split(line.value.value, ':');
      if parts.None? then Bad(400)
      else
        var more := headers + [Normal(parts.value.0, parts.value.1)];
        var r := ReadHeaders(line.rest, Left(budget, s, line.rest), more);
        assert r.Ok? ==> Ends(s, r.rest) by { if r.Ok? { EndsThrough(s, line.rest, r.rest); } }
        r
  }

  function ReadHead(s: string): (r: Outcome<Head>)
    ensures r.Ok? ==> Ends(s, r.rest) && 0 < |s| - |r.rest| <= MAX_HEAD_BYTES && |r.value.headers| <= MAX_HEADERS
    ensures !r.Crash?
  {
    var first := ReadFirst(s, MAX_HEAD_BYTES);
    if !first.Ok? then Fail(first)
    else
      var parts := SplitThree(first.value);
      if parts.None? then Bad(400)
      else if parts.value.2 !in {"HTTP/1.1", "HTTP/1.0"} then Bad(505)
      else
        var headers := ReadHeaders(first.rest, Left(MAX_HEAD_BYTES, s, first.rest), []);
        if !headers.Ok? then Fail(headers)
        else
          EndsThrough(s, first.rest, headers.rest);
          Ok(Head(parts.value.0, parts.value.1, parts.value.2, headers.value), headers.rest)
  }

  function Lookup(headers: seq<Header>, name: string): Option<string> {
    if headers == [] then None
    else if headers[0].0 == name then Some(headers[0].1)
    else Lookup(headers[1..], name)
  }

  function LookupOr(headers: seq<Header>, name: string): string {
    var v := Lookup(headers, name);
    if v.Some? then v.value else ""
  }

  predicate Closes(head: Head) {
    var connection := Lower(LookupOr(head.headers, "connection"));
    if head.version == "HTTP/1.0" then !Contains(connection, "keep-alive") else Contains(connection, "close")
  }

  predicate IsChunked(headers: seq<Header>) {
    var te := Lookup(headers, "transfer-encoding");
    te.Some? && Contains(Lower(te.value), "chunked")
  }

  // ---------- bodies ----------

  function ReadExact(s: string, n: nat): (r: Outcome<string>)
    ensures r.Ok? ==> Ends(s, r.rest) && |r.value| == n && s == r.value + r.rest
    ensures !r.Crash?
  {
    if |s| < n then Closed else Ok(s[..n], s[n..])
  }

  /** Trailer lines, to the blank line that ends them. */
  function ReadTrailers(s: string, budget: nat): (r: Outcome<()>)
    ensures r.Ok? ==> Ends(s, r.rest) && |s| - |r.rest| <= budget
    ensures !r.Crash?
    decreases |s|
  {
    var line := ReadLine(s, budget);
    if !line.Ok? then Fail(line)
    else if line.value.None? then Closed
    else if line.value.value == "" then Ok((), line.rest)
    else
      var r := ReadTrailers(line.rest, Left(budget, s, line.rest));
      assert r.Ok? ==> Ends(s, r.rest) by { if r.Ok? { EndsThrough(s, line.rest, r.rest); } }
      r
  }

  /** The size on a chunk's first line, before any extension. */
  function ChunkSize(line: string): Option<nat> {
    ParseSize(Trim(line[..IndexOf(line, ';')]), 16)
  }

  /** The bytes of one chunk and the line ending after them. */
  function ReadChunk(s: string, size: nat): (r: Outcome<string>)
    ensures r.Ok? ==> Ends(s, r.rest) && |r.value| == size
    ensures !r.Crash?
  {
    var data := ReadExact(s, size);
    if !data.Ok? then Fail(data)
    else
      var line := ReadLine(data.rest, 2);
      if !line.Ok? then Fail(line)
      else if line.value != Some("") then Bad(400)
      else
        EndsThrough(s, data.rest, line.rest);
        Ok(data.value, line.rest)
  }

  /**
   The chunks. The program adds the length of the body so far and a chunk's size as machine
   words: a sum beyond the word either stops the thread at once (checked arithmetic) or
   wraps, passes the limit, shrinks the buffer and stops it at the slice that follows.
   */
  function ReadChunks(s: string, body: string): (r: Outcome<string>)
    requires |body| <= MAX_BODY_BYTES
    ensures r.Ok? ==> Ends(s, r.rest) && |r.value| <= MAX_BODY_BYTES
    decreases |s|
  {
    var line := ReadLine(s, MAX_SIZE_LINE);
    if !line.Ok? then Fail(line)
    else if line.value.None? then Closed
    else
      var size := ChunkSize(line.value.value);
      if size.None? then Bad(400)
      else if size.value == 0 then
        var end := ReadTrailers(line.rest, MAX_HEAD_BYTES);
        if !end.Ok? then Fail(end)
        else
          EndsThrough(s, line.rest, end.rest);
          Ok(body, end.rest)
      else if |body| + size.value > USIZE_MAX then Crash
      else if |body| + size.value > MAX_BODY_BYTES then Bad(413)
      else
        var chunk := ReadChunk(line.rest, size.value);
        if !chunk.Ok? then Fail(chunk)
        else
          var r := ReadChunks(chunk.rest, body + chunk.value);
          EndsThrough(s, line.rest, chunk.rest);
          assert r.Ok? ==> Ends(s, r.rest) by { if r.Ok? { EndsThrough(s, chunk.rest, r.rest); } }
          r
  }

  function ReadBody(s: string, headers: seq<Header>): (r: Outcome<string>)
    ensures r.Ok? ==> Ends(s, r.rest) && |r.value| <= MAX_BODY_BYTES
  {
    if IsChunked(headers) then ReadChunks(s, "")
    else
      match Lookup(headers, "content-length")
      case None => Ok("", s)
      case Some(value) =>
        var length := ParseSize(value, 10);
        if length.None? then Bad(400)
        else if length.value > MAX_BODY_BYTES then Bad(413)
        else ReadExact(s, length.value)
  }

  /** The request before its body is read, as the admission check sees it. */
  function Unread(head: Head): Request {
    Request(head.verb, head.target, head.headers, "", Closes(head), false)
  }

  /**
   One request. A head that is not admitted gets no body read and ends the connection.
   */
  function ReadRequest(s: string, admit: Request -> bool): (r: Outcome<Request>)
    ensures r.Ok? ==> Ends(s, r.rest) && |r.rest| < |s|
    ensures r.Ok? ==> |r.value.body| <= MAX_BODY_BYTES && |r.value.headers| <= MAX_HEADERS
    ensures r.Ok? && r.value.drain ==> r.value.close && r.value.body == ""
  {
    var head := ReadHead(s);
    if !head.Ok? then Fail(head)
    else
      var request := Unread(head.value);
      if !admit(request) then Ok(request.(close := true, drain := true), head.rest)
      else
        var body := ReadBody(head.rest, head.value.headers);
        if !body.Ok? then Fail(body)
        else
          EndsThrough(s, head.rest, body.rest);
          Ok(request.(body := body.value), body.rest)
  }

  /** How a connection ended. */
  datatype Ending = AfterClose | Lost | Answered(status: nat) | Crashed

  /** The requests a connection carries, read until one closes it or reading fails. */
  function Serve(s: string, admit: Request -> bool): (seq<Request>, Ending)
    decreases |s|
  {
    match ReadRequest(s, admit)
    case Closed => ([], Lost)
    case Bad(status) => ([], Answered(status))
    case Crash => ([], Crashed)
    case Ok(request, rest) =>
      if request.close then ([request], AfterClose)
      else
        var (more, ending) := Serve(rest, admit);
        ([request] + more, ending)
  }
}
