/**
 What HTTP framing promises: a read depends on its own bytes only, and any sequence of
 well-formed requests on one connection is read back as that sequence.
 */
module HttpFraming {
  import opened Options
  import opened Text
  import opened Http

  // ---------- a read depends on its own bytes only ----------

  /** The bytes a read took from `s`, followed by others. */
  function Replace(s: string, rest: string, other: string): string
    requires |rest| <= |s|
  {
    s[..|s| - |rest|] + other
  }

  lemma ReplaceThrough(s: string, rest: string, after: string, other: string)
    requires Ends(s, rest) && Ends(rest, after)
    ensures Ends(s, after) && Replace(s, after, other) == Replace(s, rest, Replace(rest, after, other))
  {
    EndsThrough(s, rest, after);
    assert s == s[..|s| - |rest|] + rest;
    assert s[..|s| - |after|] == s[..|s| - |rest|] + rest[..|rest| - |after|];
  }

  lemma ReplaceEnds(s: string, rest: string, other: string)
    requires Ends(s, rest)
    ensures Ends(Replace(s, rest, other), other)
    ensures |Replace(s, rest, other)| - |other| == |s| - |rest|
  {
  }

  lemma LineLocal(s: string, budget: nat, other: string)
    requires var r := ReadLine(s, budget); r.Ok? && r.value.Some?
    ensures var r := ReadLine(s, budget);
      ReadLine(Replace(s, r.rest, other), budget) == Ok(r.value, other)
  {
    var n := IndexOf(s, '\n');
    var r := ReadLine(s, budget);
    var t := Replace(s, r.rest, other);
    assert n < |s| && r.rest == s[n + 1..];
    assert s[..n + 1] == s[..n] + ['\n'];
    assert t == s[..n] + ['\n'] + other;
    IndexOfFirst(s[..n], '\n', other);
    assert t[..n + 1] == s[..n + 1] && t[n + 1..] == other;
  }

  lemma FirstReads(s: string, budget: nat)
    requires ReadFirst(s, budget).Ok?
    ensures ReadLine(s, budget).Ok? && ReadLine(s, budget).value.Some?
  {
    hide ReadLine;
  }

  /** A blank line is skipped, any other line is the request line. */
  lemma FirstStep(s: string, budget: nat, line: string, rest: string)
    requires ReadLine(s, budget) == Ok(Some(line), rest)
    ensures ReadFirst(s, budget) == if line == "" then ReadFirst(rest, Left(budget, s, rest)) else Ok(line, rest)
  {
    hide ReadLine;
  }

  lemma {:induction false} FirstLocal(s: string, budget: nat, other: string)
    requires ReadFirst(s, budget).Ok?
    ensures var r := ReadFirst(s, budget);
      ReadFirst(Replace(s, r.rest, other), budget) == Ok(r.value, other)
    decreases |s|
  {
    hide ReadLine, ReadFirst;
    FirstReads(s, budget);
    var line := ReadLine(s, budget);
    var r := ReadFirst(s, budget);
    FirstStep(s, budget, line.value.value, line.rest);
    if line.value.value == "" {
      FirstLocal(line.rest, Left(budget, s, line.rest), other);
      ReplaceThrough(s, line.rest, r.rest, other);
      var more := Replace(line.rest, r.rest, other);
      LineLocal(s, budget, more);
      ReplaceEnds(s, line.rest, more);
      FirstStep(Replace(s, line.rest, more), budget, "", more);
    } else {
      LineLocal(s, budget, other);
      FirstStep(Replace(s, line.rest, other), budget, line.value.value, other);
    }
  }

  lemma {:induction false} HeadersLocal(s: string, budget: nat, headers: seq<Header>, other: string)
    requires |headers| <= MAX_HEADERS && ReadHeaders(s, budget, headers).Ok?
    ensures var r := ReadHeaders(s, budget, headers);
      ReadHeaders(Replace(s, r.rest, other), budget, headers) == Ok(r.value, other)
    decreases |s|
  {
    hide ReadLine, Split, Normal;
    var line := ReadLine(s, budget);
    var r := ReadHeaders(s, budget, headers);
    if line.value.value == "" {
      LineLocal(s, budget, other);
      ReplaceEnds(s, line.rest, other);
    } else {
      var parts := Split(line.value.value, ':').value;
      HeadersLocal(line.rest, Left(budget, s, line.rest), headers + [Normal(parts.0, parts.1)], other);
      LineLocal(s, budget, Replace(line.rest, r.rest, other));
      ReplaceThrough(s, line.rest, r.rest, other);
      ReplaceEnds(s, line.rest, Replace(line.rest, r.rest, other));
    }
  }

  lemma HeadLocal(s: string, other: string)
    requires ReadHead(s).Ok?
    ensures var r := ReadHead(s); ReadHead(Replace(s, r.rest, other)) == Ok(r.value, other)
  {
    hide ReadFirst, ReadHeaders, SplitThree;
    var first := ReadFirst(s, MAX_HEAD_BYTES);
    var left := Left(MAX_HEAD_BYTES, s, first.rest);
    var headers := ReadHeaders(first.rest, left, []);
    HeadersLocal(first.rest, left, [], other);
    FirstLocal(s, MAX_HEAD_BYTES, Replace(first.rest, headers.rest, other));
    ReplaceThrough(s, first.rest, headers.rest, other);
    ReplaceEnds(s, first.rest, Replace(first.rest, headers.rest, other));
  }

  lemma ExactLocal(s: string, n: nat, other: string)
    requires ReadExact(s, n).Ok?
    ensures var r := ReadExact(s, n); ReadExact(Replace(s, r.rest, other), n) == Ok(r.value, other)
  {
    assert s[..|s| - |s[n..]|] == s[..n];
    assert (s[..n] + other)[..n] == s[..n] && (s[..n] + other)[n..] == other;
  }

  lemma {:induction false} TrailersLocal(s: string, budget: nat, other: string)
    requires ReadTrailers(s, budget).Ok?
    ensures var r := ReadTrailers(s, budget);
      ReadTrailers(Replace(s, r.rest, other), budget) == Ok((), other)
    decreases |s|
  {
    hide ReadLine;
    var line := ReadLine(s, budget);
    var r := ReadTrailers(s, budget);
    if line.value.value == "" {
      LineLocal(s, budget, other);
      ReplaceEnds(s, line.rest, other);
    } else {
      TrailersLocal(line.rest, Left(budget, s, line.rest), other);
      LineLocal(s, budget, Replace(line.rest, r.rest, other));
      ReplaceThrough(s, line.rest, r.rest, other);
      ReplaceEnds(s, line.rest, Replace(line.rest, r.rest, other));
    }
  }

  lemma ChunkLocal(s: string, size: nat, other: string)
    requires ReadChunk(s, size).Ok?
    ensures var r := ReadChunk(s, size); ReadChunk(Replace(s, r.rest, other), size) == Ok(r.value, other)
  {
    hide ReadExact, ReadLine;
    var data := ReadExact(s, size);
    var line := ReadLine(data.rest, 2);
    LineLocal(data.rest, 2, other);
    ExactLocal(s, size, Replace(data.rest, line.rest, other));
    ReplaceThrough(s, data.rest, line.rest, other);
  }

  lemma {:induction false} ChunksLocal(s: string, body: string, other: string)
    requires |body| <= MAX_BODY_BYTES && ReadChunks(s, body).Ok?
    ensures var r := ReadChunks(s, body);
      ReadChunks(Replace(s, r.rest, other), body) == Ok(r.value, other)
    decreases |s|
  {
    hide ReadLine, ReadChunk, ReadTrailers, ChunkSize;
    var line := ReadLine(s, MAX_SIZE_LINE);
    var size := ChunkSize(line.value.value).value;
    var r := ReadChunks(s, body);
    if size == 0 {
      TrailersLocal(line.rest, MAX_HEAD_BYTES, other);
    } else {
      var chunk := ReadChunk(line.rest, size);
      ChunksLocal(chunk.rest, body + chunk.value, other);
      ChunkLocal(line.rest, size, Replace(chunk.rest, r.rest, other));
      ReplaceThrough(line.rest, chunk.rest, r.rest, other);
    }
    LineLocal(s, MAX_SIZE_LINE, Replace(line.rest, r.rest, other));
    ReplaceThrough(s, line.rest, r.rest, other);
  }

  lemma BodyLocal(s: string, headers: seq<Header>, other: string)
    requires ReadBody(s, headers).Ok?
    ensures var r := ReadBody(s, headers); ReadBody(Replace(s, r.rest, other), headers) == Ok(r.value, other)
  {
    hide ReadChunks, ReadExact, IsChunked, Lookup, ParseSize;
    if IsChunked(headers) {
      ChunksLocal(s, "", other);
    } else if Lookup(headers, "content-length").Some? {
      ExactLocal(s, ParseSize(Lookup(headers, "content-length").value, 10).value, other);
    } else {
      assert s[..0] + other == other;
    }
  }

  /** Every accepted request is read from its own bytes alone: whatever follows them is left
      unread and changes nothing. */
  lemma RequestLocal(s: string, admit: Request -> bool, other: string)
    requires ReadRequest(s, admit).Ok?
    ensures var r := ReadRequest(s, admit);
      ReadRequest(Replace(s, r.rest, other), admit) == Ok(r.value, other)
  {
    hide ReadHead, ReadBody, Unread;
    var head := ReadHead(s);
    if admit(Unread(head.value)) {
      var body := ReadBody(head.rest, head.value.headers);
      BodyLocal(head.rest, head.value.headers, other);
      HeadLocal(s, Replace(head.rest, body.rest, other));
      ReplaceThrough(s, head.rest, body.rest, other);
    } else {
      HeadLocal(s, other);
    }
  }

  // ---------- requests on the wire ----------

  /** A chunk: its size line in any spelling, with any extension, and its bytes. */
  datatype Chunk = Chunk(line: string, data: string)

  datatype Payload =
    | Whole(body: string)
    | Chunked(chunks: seq<Chunk>, last: string, trailers: seq<string>)

  /** A request as a client writes it, after `blank` blank lines. */
  datatype Wire = Wire(
    blank: nat, verb: string, target: string, version: string, headers: seq<(string, string)>, payload: Payload)

  predicate CleanLine(line: string) {
    '\n' !in line && '\r' !in line && Utf8(line)
  }

  function Ended(line: string): string { line + "\r\n" }

  function HeaderLine(h: (string, string)): string { h.0 + ":" + h.1 }

  function HeaderBytes(headers: seq<(string, string)>): string {
    if headers == [] then "" else Ended(HeaderLine(headers[0])) + HeaderBytes(headers[1..])
  }

  function Normals(headers: seq<(string, string)>): (r: seq<Header>)
    ensures |r| == |headers|
  {
    if headers == [] then [] else [Normal(headers[0].0, headers[0].1)] + Normals(headers[1..])
  }

  function Blanks(n: nat): string {
    if n == 0 then "" else Ended("") + Blanks(n - 1)
  }

  function FirstLine(w: Wire): string { w.verb + " " + w.target + " " + w.version }

  function HeadBytes(w: Wire): string {
    Blanks(w.blank) + (Ended(FirstLine(w)) + (HeaderBytes(w.headers) + Ended("")))
  }

  function LineBytes(lines: seq<string>): string {
    if lines == [] then "" else Ended(lines[0]) + LineBytes(lines[1..])
  }

  function ChunkBytes(chunks: seq<Chunk>): string {
    if chunks == [] then ""
    else Ended(chunks[0].line) + (Ended(chunks[0].data) + ChunkBytes(chunks[1..]))
  }

  function Concat(chunks: seq<Chunk>): string {
    if chunks == [] then "" else chunks[0].data + Concat(chunks[1..])
  }

  function PayloadBytes(p: Payload): string {
    match p
    case Whole(body) => body
    case Chunked(chunks, last, trailers) => ChunkBytes(chunks) + LastBytes(last, trailers)
  }

  /** The last chunk, of size 0, and the trailers. */
  function LastBytes(last: string, trailers: seq<string>): string {
    Ended(last) + (LineBytes(trailers) + Ended(""))
  }

  function Bytes(w: Wire): string { HeadBytes(w) + PayloadBytes(w.payload) }

  function Body(p: Payload): string {
    match p
    case Whole(body) => body
    case Chunked(chunks, _, _) => Concat(chunks)
  }

  predicate GoodHeader(h: (string, string)) {
    ':' !in h.0 && CleanLine(HeaderLine(h))
  }

  predicate GoodHead(w: Wire) {
    && ' ' !in w.verb && ' ' !in w.target && w.version in {"HTTP/1.1", "HTTP/1.0"} && CleanLine(FirstLine(w))
    && |w.headers| <= MAX_HEADERS && (forall i :: 0 <= i < |w.headers| ==> GoodHeader(w.headers[i]))
    && |HeadBytes(w)| <= MAX_HEAD_BYTES
  }

  predicate GoodChunk(c: Chunk) {
    CleanLine(c.line) && |Ended(c.line)| <= MAX_SIZE_LINE && c.data != "" && ChunkSize(c.line) == Some(|c.data|)
  }

  /** The payload is framed as the headers say, within the limits. */
  predicate GoodPayload(p: Payload, headers: seq<Header>) {
    && |Body(p)| <= MAX_BODY_BYTES
    && match p
       case Whole(body) =>
         !IsChunked(headers) &&
         (match Lookup(headers, "content-length")
          case None => body == ""
          case Some(value) => ParseSize(value, 10) == Some(|body|))
       case Chunked(chunks, last, trailers) =>
         && IsChunked(headers)
         && (forall i :: 0 <= i < |chunks| ==> GoodChunk(chunks[i]))
         && GoodLast(last, trailers)
  }

  predicate Good(w: Wire) {
    GoodHead(w) && GoodPayload(w.payload, Normals(w.headers))
  }

  function Meant(w: Wire): Head {
    Head(w.verb, w.target, w.version, Normals(w.headers))
  }

  /** The request a well-formed wire form stands for. */
  function Sent(w: Wire): Request {
    Unread(Meant(w)).(body := Body(w.payload))
  }

  // ---------- reading them back ----------

  lemma StripEnded(line: string)
    requires '\n' !in line && '\r' !in line
    ensures Strip(line + "\r" + ['\n']) == line
  {
    var s := line + "\r" + ['\n'];
    assert s[..|s| - 1] == line + "\r";
    assert (line + "\r")[..|line|] == line;
    assert Strip(line) == line;
    assert Strip(line + "\r") == Strip(line);
  }

  lemma ReadEnded(line: string, rest: string, budget: nat)
    requires CleanLine(line) && |Ended(line)| <= budget
    ensures ReadLine(Ended(line) + rest, budget) == Ok(Some(line), rest)
  {
    hide Utf8, Strip;
    var s := Ended(line) + rest;
    assert s == (line + "\r") + ['\n'] + rest;
    IndexOfFirst(line + "\r", '\n', rest);
    var n := |line| + 2;
    assert s[..n] == line + "\r" + ['\n'] && s[n..] == rest;
    StripEnded(line);
  }

  lemma {:induction false} ReadBlanks(blank: nat, line: string, rest: string, budget: nat)
    requires line != "" && CleanLine(line) && |Blanks(blank)| + |Ended(line)| <= budget
    ensures ReadFirst(Blanks(blank) + (Ended(line) + rest), budget) == Ok(line, rest)
    decreases blank
  {
    hide ReadLine, CleanLine;
    if blank == 0 {
      assert Blanks(0) + (Ended(line) + rest) == Ended(line) + rest;
      ReadEnded(line, rest, budget);
    } else {
      var tail := Blanks(blank - 1) + (Ended(line) + rest);
      var s := Blanks(blank) + (Ended(line) + rest);
      assert s == Ended("") + tail;
      EmptyIsClean();
      ReadEnded("", tail, budget);
      ReadBlanks(blank - 1, line, rest, budget - 2);
    }
  }

  lemma EmptyIsClean()
    ensures CleanLine("") && |Ended("")| == 2
  {
  }

  lemma {:induction false} ReadGoodHeaders(hs: seq<(string, string)>, acc: seq<Header>, rest: string, budget: nat)
    requires |acc| + |hs| <= MAX_HEADERS && (forall i :: 0 <= i < |hs| ==> GoodHeader(hs[i]))
    requires |HeaderBytes(hs) + Ended("")| <= budget
    ensures ReadHeaders(HeaderBytes(hs) + Ended("") + rest, budget, acc) == Ok(acc + Normals(hs), rest)
    decreases |hs|
  {
    hide ReadHeaders, ReadLine, CleanLine, Normal, HeaderLine, Ended, HeaderBytes, Normals;
    HeaderBytesFirst(hs, rest);
    if hs == [] {
      EmptyIsClean();
      ReadEnded("", rest, budget);
      HeadersEnd(Ended("") + rest, budget, acc, rest);
      NormalsFirst(acc, hs);
    } else {
      var line, h := HeaderLine(hs[0]), Normal(hs[0].0, hs[0].1);
      var tail := HeaderBytes(hs[1..]) + Ended("") + rest;
      ReadEnded(line, tail, budget);
      HeadersStep(Ended(line) + tail, budget, acc, hs[0], tail);
      ReadGoodHeaders(hs[1..], acc + [h], rest, budget - |Ended(line)|);
      NormalsFirst(acc, hs);
    }
  }

  lemma NormalsFirst(acc: seq<Header>, hs: seq<(string, string)>)
    ensures acc + Normals(hs) ==
      if hs == [] then acc else acc + [Normal(hs[0].0, hs[0].1)] + Normals(hs[1..])
  {
    hide Normal;
  }

  lemma HeaderBytesFirst(hs: seq<(string, string)>, rest: string)
    ensures HeaderBytes(hs) + Ended("") + rest ==
      if hs == [] then Ended("") + rest
      else Ended(HeaderLine(hs[0])) + (HeaderBytes(hs[1..]) + Ended("") + rest)
    ensures hs != [] ==> |HeaderBytes(hs)| == |Ended(HeaderLine(hs[0]))| + |HeaderBytes(hs[1..])|
  {
    hide Ended, HeaderLine;
  }

  lemma HeadersEnd(s: string, budget: nat, acc: seq<Header>, rest: string)
    requires |acc| <= MAX_HEADERS && ReadLine(s, budget) == Ok(Some(""), rest)
    ensures ReadHeaders(s, budget, acc) == Ok(acc, rest)
  {
    hide ReadLine;
  }

  lemma HeadersStep(s: string, budget: nat, acc: seq<Header>, h: (string, string), rest: string)
    requires |acc| < MAX_HEADERS && ':' !in h.0 && ReadLine(s, budget) == Ok(Some(HeaderLine(h)), rest)
    ensures ReadHeaders(s, budget, acc) == ReadHeaders(rest, Left(budget, s, rest), acc + [Normal(h.0, h.1)])
  {
    hide ReadLine, Normal, HeaderLine, Split;
    HeaderSplits(h);
  }

  lemma Splits(a: string, c: char, b: string)
    requires c !in a
    ensures Split(a + [c] + b, c) == Some((a, b))
  {
    var s := a + [c] + b;
    IndexOfFirst(a, c, b);
    assert s[..|a|] == a && s[|a| + 1..] == b;
  }

  lemma HeaderSplits(h: (string, string))
    requires ':' !in h.0
    ensures Split(HeaderLine(h), ':') == Some(h) && HeaderLine(h) != ""
  {
    Splits(h.0, ':', h.1);
  }

  lemma FirstLineSplits(w: Wire)
    requires ' ' !in w.verb && ' ' !in w.target && w.version in {"HTTP/1.1", "HTTP/1.0"}
    ensures SplitThree(FirstLine(w)) == Some((w.verb, w.target, w.version)) && FirstLine(w) != ""
  {
    hide Split;
    var tail := w.target + [' '] + w.version;
    assert FirstLine(w) == w.verb + [' '] + tail;
    Splits(w.verb, ' ', tail);
    Splits(w.target, ' ', w.version);
    NoSpace();
  }

  lemma NoSpace()
    ensures ' ' !in "HTTP/1.1" && ' ' !in "HTTP/1.0"
  {
  }

  lemma HeadInParts(s: string, w: Wire, tail: string, rest: string)
    requires ReadFirst(s, MAX_HEAD_BYTES) == Ok(FirstLine(w), tail)
    requires SplitThree(FirstLine(w)) == Some((w.verb, w.target, w.version)) && w.version in {"HTTP/1.1", "HTTP/1.0"}
    requires ReadHeaders(tail, Left(MAX_HEAD_BYTES, s, tail), []) == Ok(Normals(w.headers), rest)
    ensures ReadHead(s) == Ok(Meant(w), rest)
  {
    hide ReadFirst, ReadHeaders, SplitThree, FirstLine, Normals;
  }

  lemma ReadGoodHead(w: Wire, rest: string)
    requires GoodHead(w)
    ensures ReadHead(HeadBytes(w) + rest) == Ok(Meant(w), rest)
  {
    hide ReadHead, ReadFirst, ReadHeaders, SplitThree, CleanLine, GoodHeader, FirstLine, Ended, HeaderBytes, Blanks;
    hide Normals, Meant;
    var s := HeadBytes(w) + rest;
    var tail := HeaderBytes(w.headers) + Ended("") + rest;
    var front := Blanks(w.blank) + Ended(FirstLine(w));
    assert s == Blanks(w.blank) + (Ended(FirstLine(w)) + tail);
    FirstLineSplits(w);
    ReadBlanks(w.blank, FirstLine(w), tail, MAX_HEAD_BYTES);
    assert |s| - |tail| == |front|;
    ReadGoodHeaders(w.headers, [], rest, MAX_HEAD_BYTES - |front|);
    assert [] + Normals(w.headers) == Normals(w.headers);
    HeadInParts(s, w, tail, rest);
  }

  lemma {:induction false} ReadGoodTrailers(lines: seq<string>, rest: string, budget: nat)
    requires forall i :: 0 <= i < |lines| ==> lines[i] != "" && CleanLine(lines[i])
    requires |LineBytes(lines) + Ended("")| <= budget
    ensures ReadTrailers(LineBytes(lines) + Ended("") + rest, budget) == Ok((), rest)
    decreases |lines|
  {
    hide ReadLine, CleanLine, Ended;
    if lines == [] {
      assert LineBytes(lines) + Ended("") + rest == Ended("") + rest;
      EmptyIsClean();
      ReadEnded("", rest, budget);
    } else {
      var tail := LineBytes(lines[1..]) + Ended("") + rest;
      assert LineBytes(lines) + Ended("") + rest == Ended(lines[0]) + tail;
      ReadEnded(lines[0], tail, budget);
      ReadGoodTrailers(lines[1..], rest, budget - |Ended(lines[0])|);
    }
  }

  lemma ReadGoodChunk(data: string, rest: string)
    ensures ReadChunk(Ended(data) + rest, |data|) == Ok(data, rest)
  {
    hide ReadLine;
    var s := Ended(data) + rest;
    assert s[..|data|] == data && s[|data|..] == Ended("") + rest;
    EmptyIsClean();
    ReadEnded("", rest, 2);
  }

  predicate GoodLast(last: string, trailers: seq<string>) {
    && CleanLine(last) && |Ended(last)| <= MAX_SIZE_LINE && ChunkSize(last) == Some(0)
    && (forall i :: 0 <= i < |trailers| ==> trailers[i] != "" && CleanLine(trailers[i]))
    && |LineBytes(trailers) + Ended("")| <= MAX_HEAD_BYTES
  }

  lemma ReadGoodLast(last: string, trailers: seq<string>, body: string, rest: string)
    requires GoodLast(last, trailers) && |body| <= MAX_BODY_BYTES
    ensures ReadChunks(LastBytes(last, trailers) + rest, body) == Ok(body, rest)
  {
    hide ReadLine, ReadChunk, ReadTrailers, ChunkSize, CleanLine, Ended, LineBytes;
    var end := LineBytes(trailers) + Ended("") + rest;
    assert LastBytes(last, trailers) + rest == Ended(last) + end;
    ReadEnded(last, end, MAX_SIZE_LINE);
    ReadGoodTrailers(trailers, rest, MAX_HEAD_BYTES);
  }

  lemma ChunksStep(s: string, body: string, c: Chunk, rest: string, more: string)
    requires ReadLine(s, MAX_SIZE_LINE) == Ok(Some(c.line), rest) && ReadChunk(rest, |c.data|) == Ok(c.data, more)
    requires ChunkSize(c.line) == Some(|c.data|) && c.data != "" && |body| + |c.data| <= MAX_BODY_BYTES
    ensures ReadChunks(s, body) == ReadChunks(more, body + c.data)
  {
    hide ReadLine, ReadChunk, ChunkSize;
  }

  lemma ReadFirstChunk(c: Chunk, body: string, more: string)
    requires GoodChunk(c) && |body| + |c.data| <= MAX_BODY_BYTES
    ensures ReadChunks(Ended(c.line) + (Ended(c.data) + more), body) == ReadChunks(more, body + c.data)
  {
    hide ReadChunks, ReadLine, ReadChunk, ChunkSize, CleanLine, Ended;
    ReadEnded(c.line, Ended(c.data) + more, MAX_SIZE_LINE);
    ReadGoodChunk(c.data, more);
    ChunksStep(Ended(c.line) + (Ended(c.data) + more), body, c, Ended(c.data) + more, more);
  }

  lemma ChunkBytesFirst(chunks: seq<Chunk>, more: string)
    ensures ChunkBytes(chunks) + more ==
      if chunks == [] then more
      else Ended(chunks[0].line) + (Ended(chunks[0].data) + (ChunkBytes(chunks[1..]) + more))
  {
    hide Ended;
  }

  /** Well-formed chunks are read one after the other, whatever follows them. */
  lemma {:induction false} ReadThrough(chunks: seq<Chunk>, body: string, more: string)
    requires forall i :: 0 <= i < |chunks| ==> GoodChunk(chunks[i])
    requires |body| + |Concat(chunks)| <= MAX_BODY_BYTES
    ensures ReadChunks(ChunkBytes(chunks) + more, body) == ReadChunks(more, body + Concat(chunks))
    decreases |chunks|
  {
    hide ReadChunks, ChunkBytes, GoodChunk, Ended;
    ChunkBytesFirst(chunks, more);
    if chunks == [] {
      assert body + "" == body;
    } else {
      var c := chunks[0];
      var rest := ChunkBytes(chunks[1..]) + more;
      ReadFirstChunk(c, body, rest);
      ReadThrough(chunks[1..], body + c.data, more);
      assert body + c.data + Concat(chunks[1..]) == body + Concat(chunks);
    }
  }

  /** A chunked body is the concatenation of its chunks (section 7.1 of RFC 9112). */
  lemma ReadGoodChunks(chunks: seq<Chunk>, last: string, trailers: seq<string>, rest: string)
    requires GoodLast(last, trailers) && forall i :: 0 <= i < |chunks| ==> GoodChunk(chunks[i])
    requires |Concat(chunks)| <= MAX_BODY_BYTES
    ensures ReadChunks(ChunkBytes(chunks) + LastBytes(last, trailers) + rest, "") == Ok(Concat(chunks), rest)
  {
    hide ReadChunks, LastBytes, GoodLast, ChunkBytes, GoodChunk, Concat;
    var end := LastBytes(last, trailers) + rest;
    assert ChunkBytes(chunks) + LastBytes(last, trailers) + rest == ChunkBytes(chunks) + end;
    assert "" + Concat(chunks) == Concat(chunks);
    ReadThrough(chunks, "", end);
    ReadGoodLast(last, trailers, Concat(chunks), rest);
  }

  /**
   A chunk too large for the body limit, after any well-formed chunks. It is answered with
   status 413, unless its size added to the body so far leaves the machine word: then the
   thread ends without an answer.
   */
  lemma OversizedChunk(chunks: seq<Chunk>, line: string, size: nat, rest: string)
    requires forall i :: 0 <= i < |chunks| ==> GoodChunk(chunks[i])
    requires |Concat(chunks)| <= MAX_BODY_BYTES < |Concat(chunks)| + size
    requires CleanLine(line) && |Ended(line)| <= MAX_SIZE_LINE && ChunkSize(line) == Some(size)
    ensures ReadChunks(ChunkBytes(chunks) + (Ended(line) + rest), "")
      == if |Concat(chunks)| + size > USIZE_MAX then Crash else Bad(413)
  {
    hide ReadLine, ChunkBytes, GoodChunk, Concat, CleanLine, Ended, ChunkSize, ReadTrailers, ReadChunk;
    ReadThrough(chunks, "", Ended(line) + rest);
    assert "" + Concat(chunks) == Concat(chunks);
    ReadEnded(line, rest, MAX_SIZE_LINE);
  }

  lemma ReadGoodPayload(p: Payload, headers: seq<Header>, rest: string)
    requires GoodPayload(p, headers)
    ensures ReadBody(PayloadBytes(p) + rest, headers) == Ok(Body(p), rest)
  {
    hide ReadChunks, IsChunked, Lookup, ParseSize, GoodLast, GoodChunk, ChunkBytes, LastBytes, Concat;
    match p
    case Whole(body) =>
      assert (body + rest)[..|body|] == body && (body + rest)[|body|..] == rest;
    case Chunked(chunks, last, trailers) =>
      ReadGoodChunks(chunks, last, trailers, rest);
  }

  /** A well-formed, admitted request is read back whole; the bytes after it stay unread. */
  lemma ReadSent(w: Wire, admit: Request -> bool, rest: string)
    requires Good(w) && admit(Unread(Meant(w)))
    ensures ReadRequest(Bytes(w) + rest, admit) == Ok(Sent(w), rest)
  {
    hide ReadHead, ReadBody, Unread, HeadBytes, PayloadBytes, GoodHead, GoodPayload;
    assert Bytes(w) + rest == HeadBytes(w) + (PayloadBytes(w.payload) + rest);
    ReadGoodHead(w, PayloadBytes(w.payload) + rest);
    ReadGoodPayload(w.payload, Normals(w.headers), rest);
  }

  function AllBytes(ws: seq<Wire>): string {
    if ws == [] then "" else Bytes(ws[0]) + AllBytes(ws[1..])
  }

  function AllSent(ws: seq<Wire>): seq<Request> {
    if ws == [] then [] else [Sent(ws[0])] + AllSent(ws[1..])
  }

  /** A kept-alive connection that carries well-formed requests decodes to exactly those
      requests, in order. */
  lemma {:induction false} ConnectionReadsBack(ws: seq<Wire>, admit: Request -> bool)
    requires forall i :: 0 <= i < |ws| ==> Good(ws[i]) && admit(Unread(Meant(ws[i])))
    requires forall i :: 0 <= i < |ws| - 1 ==> !Sent(ws[i]).close
    ensures var ending := if ws != [] && Sent(ws[|ws| - 1]).close then AfterClose else Lost;
      Serve(AllBytes(ws), admit) == (AllSent(ws), ending)
    decreases |ws|
  {
    hide ReadRequest, Good, Bytes, Sent, Unread;
    if ws == [] {
      NothingToRead(admit);
    } else {
      ReadSent(ws[0], admit, AllBytes(ws[1..]));
      if |ws| == 1 {
        assert ws[1..] == [] && [Sent(ws[0])] + [] == [Sent(ws[0])];
        NothingToRead(admit);
      } else {
        ConnectionReadsBack(ws[1..], admit);
      }
    }
  }

  lemma NothingToRead(admit: Request -> bool)
    ensures ReadRequest("", admit) == Closed
  {
  }

  // ---------- what the head says ----------

  predicate OccursAt(s: string, part: string, i: int) {
    0 <= i <= |s| && part <= s[i..]
  }

  lemma {:induction false} ContainsMeaning(s: string, part: string)
    ensures Contains(s, part) <==> exists i :: OccursAt(s, part, i)
  {
    assert s[0..] == s;
    if part <= s {
      assert OccursAt(s, part, 0);
    } else if s != "" {
      ContainsMeaning(s[1..], part);
      if i :| OccursAt(s[1..], part, i) {
        assert s[i + 1..] == s[1..][i..];
        assert OccursAt(s, part, i + 1);
      }
      if i :| OccursAt(s, part, i) {
        assert s[i..] == s[1..][i - 1..];
        assert OccursAt(s[1..], part, i - 1);
      }
    }
  }

  /**
   When a connection ends, for every head: an HTTP/1.1 connection exactly when the first
   `connection` header, in lower case, has "close" anywhere in it, an HTTP/1.0 connection
   exactly unless it has "keep-alive" anywhere in it. Without the header this is the default of
   section 9.3 of RFC 9112.
   */
  lemma Persistence(head: Head)
    ensures var connection := Lower(LookupOr(head.headers, "connection"));
      Closes(head) <==>
        if head.version == "HTTP/1.0" then !exists i :: OccursAt(connection, "keep-alive", i)
        else exists i :: OccursAt(connection, "close", i)
    ensures Lookup(head.headers, "connection").None? ==> (Closes(head) <==> head.version == "HTTP/1.0")
  {
    var connection := Lower(LookupOr(head.headers, "connection"));
    ContainsMeaning(connection, "keep-alive");
    ContainsMeaning(connection, "close");
    if Lookup(head.headers, "connection").None? {
      assert connection == "";
    }
  }

  /** A list of options that names "close", in any spelling, ends an HTTP/1.1 connection. */
  lemma CloseOption(head: Head, before: string, after: string)
    requires head.version == "HTTP/1.1"
    requires Lower(LookupOr(head.headers, "connection")) == before + "close" + after
    ensures Closes(head)
  {
    Persistence(head);
    var v := before + "close" + after;
    assert v[|before|..] == "close" + after;
    assert OccursAt(v, "close", |before|);
  }

  /** Chunk sizes and lengths in the usual spelling are read as the numbers they spell. */
  function Hex(n: nat): (s: string)
    ensures s != "" && forall i :: 0 <= i < |s| ==> 0 <= HexDigit(s[i]) < 16
  {
    if n < 16 then [HexChar(n)] else Hex(n / 16) + [HexChar(n % 16)]
  }

  function HexChar(d: nat): (c: char)
    requires d < 16
    ensures HexDigit(c) == d
  {
    if d < 10 then '0' + d as char else 'a' + (d - 10) as char
  }

  lemma {:induction false} HexValue(n: nat)
    ensures Value(Hex(n), 16) == Some(n)
  {
    var s := Hex(n);
    if n < 16 {
      assert s[..0] == "";
      assert Value(s[..0], 16) == Some(0);
    } else {
      HexValue(n / 16);
      assert s[..|s| - 1] == Hex(n / 16);
    }
  }

  lemma {:induction false} DecimalValue(n: nat)
    ensures Value(Decimal(n), 10) == Some(n)
  {
    var s := Decimal(n);
    if n < 10 {
      assert s[..0] == "";
      assert Value(s[..0], 10) == Some(0);
    } else {
      DecimalValue(n / 10);
      assert s[..|s| - 1] == Decimal(n / 10);
    }
  }

  function Power16(k: nat): nat {
    if k == 0 then 1 else 16 * Power16(k - 1)
  }

  lemma {:induction false} HexWidth(n: nat, k: nat)
    requires k > 0 && n < Power16(k)
    ensures |Hex(n)| <= k
  {
    if n >= 16 {
      assert k > 1 by { assert Power16(1) == 16; }
      HexWidth(n / 16, k - 1);
    }
  }

  /** A size in hexadecimal is read as the number it spells, up to the machine word. */
  lemma HexSize(n: nat)
    requires n <= USIZE_MAX
    ensures var line := Hex(n);
      CleanLine(line) && |Ended(line)| <= MAX_SIZE_LINE && ChunkSize(line) == Some(n)
  {
    ShortHex(n);
    HexValue(n);
    HexIsPlain(n);
    hide Hex, Value, Trim, CleanLine;
  }

  lemma ShortHex(n: nat)
    requires n <= USIZE_MAX
    ensures |Hex(n)| <= 16
  {
    hide Hex;
    assert Power16(8) == 0x1_0000_0000;
    assert Power16(16) == 0x1_0000_0000_0000_0000;
    HexWidth(n, 16);
  }

  /** A chunk whose size line is its length in hexadecimal is well formed. */
  lemma PlainChunk(data: string)
    requires 0 < |data| <= MAX_BODY_BYTES
    ensures GoodChunk(Chunk(Hex(|data|), data))
  {
    hide Hex, CleanLine, ChunkSize;
    HexSize(|data|);
  }

  /** A body that the program does not answer: any chunk with data, then one whose size is the
      largest machine word. */
  lemma OverflowingChunk(data: string, rest: string)
    requires 0 < |data| <= MAX_BODY_BYTES
    ensures ReadChunks(ChunkBytes([Chunk(Hex(|data|), data)]) + (Ended(Hex(USIZE_MAX)) + rest), "") == Crash
  {
    hide Hex, CleanLine, ChunkSize, ReadChunks, ChunkBytes, Ended;
    var chunks := [Chunk(Hex(|data|), data)];
    PlainChunk(data);
    HexSize(USIZE_MAX);
    assert chunks[1..] == [] && Concat(chunks) == data + "";
    OversizedChunk(chunks, Hex(USIZE_MAX), USIZE_MAX, rest);
  }

  lemma HexIsPlain(n: nat)
    ensures var line := Hex(n);
      && line[0] != '+' && CleanLine(line)
      && line[..IndexOf(line, ';')] == line && Trim(line) == line
  {
    var line := Hex(n);
    assert forall c :: c in line ==> HexDigit(c) >= 0;
    hide Hex, Trim, CleanLine;
    assert line[0] in line;
    NoSemicolon(line);
    DigitsAreClean(line);
    DigitsUntrimmed(line);
  }

  lemma NoSemicolon(line: string)
    requires forall c :: c in line ==> HexDigit(c) >= 0
    ensures line[..IndexOf(line, ';')] == line
  {
    assert HexDigit(';') < 0;
    IndexOfNone(line, ';');
  }

  lemma {:induction false} DigitsAreClean(line: string)
    requires forall c :: c in line ==> HexDigit(c) >= 0
    ensures CleanLine(line)
  {
    if line != "" {
      assert line[0] in line;
      DigitsAreClean(line[1..]);
    }
  }

  lemma DigitsUntrimmed(line: string)
    requires line != "" && forall c :: c in line ==> HexDigit(c) >= 0
    ensures Trim(line) == line
  {
    assert line[0] in line && line[|line| - 1] in line;
    SolidUntrimmed(line);
  }

  /** A visible ASCII character. */
  predicate Solid(c: char) { '!' <= c <= '~' }

  /** A text between visible characters is not trimmed. */
  lemma SolidUntrimmed(s: string)
    requires s != "" && Solid(s[0]) && Solid(s[|s| - 1])
    ensures Trim(s) == s
  {
    hide TrimStart, TrimEnd;
    SolidFirst(s);
    SolidLast(s);
  }

  lemma SolidFirst(s: string)
    requires s != "" && Solid(s[0])
    ensures TrimStart(s) == s
  {
    hide White;
    SolidIsNotWhite(s[..1]);
    if |s| >= 2 {
      SolidIsNotWhite(s[..2]);
    }
    if |s| >= 3 {
      SolidIsNotWhite(s[..3]);
    }
  }

  lemma SolidLast(s: string)
    requires s != "" && Solid(s[|s| - 1])
    ensures TrimEnd(s) == s
  {
    hide White, TrimEnd;
    EndIsNotWhite(s, 1);
    if |s| >= 2 {
      EndIsNotWhite(s, 2);
    }
    if |s| >= 3 {
      EndIsNotWhite(s, 3);
    }
    Untrimmed(s);
  }

  lemma Untrimmed(s: string)
    requires s != "" && !White(s[|s| - 1..])
    requires (|s| >= 2 ==> !White(s[|s| - 2..])) && (|s| >= 3 ==> !White(s[|s| - 3..]))
    ensures TrimEnd(s) == s
  {
    hide White;
  }

  lemma EndIsNotWhite(s: string, n: nat)
    requires 1 <= n <= |s| && Solid(s[|s| - 1])
    ensures !White(s[|s| - n..])
  {
    var t := s[|s| - n..];
    assert t[n - 1] == s[|s| - 1];
    SolidIsNotWhite(t);
  }

  lemma SolidIsNotWhite(s: string)
    requires s != "" && (Solid(s[0]) || Solid(s[|s| - 1]))
    ensures !White(s)
  {
  }

  /** Spaces and tabs. */
  predicate Blank(s: string) { forall i :: 0 <= i < |s| ==> s[i] == ' ' || s[i] == '\t' }

  /** Empty, or between visible characters. */
  predicate Bare(s: string) { s != "" ==> Solid(s[0]) && Solid(s[|s| - 1]) }

  lemma {:induction false} BlankStart(a: string, s: string)
    requires Blank(a)
    ensures TrimStart(a + s) == TrimStart(s)
    decreases |a|
  {
    hide TrimStart;
    if a == "" {
      assert a + s == s;
    } else {
      assert (a + s)[..1] == [a[0]] && (a + s)[1..] == a[1..] + s;
      assert White((a + s)[..1]);
      WhiteFirst(a + s);
      BlankStart(a[1..], s);
    }
  }

  lemma WhiteFirst(s: string)
    requires s != "" && White(s[..1])
    ensures TrimStart(s) == TrimStart(s[1..])
  {
    hide White;
  }

  lemma {:induction false} BlankEnd(s: string, b: string)
    requires Blank(b)
    ensures TrimEnd(s + b) == TrimEnd(s)
    decreases |b|
  {
    hide TrimEnd;
    if b == "" {
      assert s + b == s;
    } else {
      var n := |b| - 1;
      assert (s + b)[|s| + n..] == [b[n]] && (s + b)[..|s| + n] == s + b[..n];
      assert White((s + b)[|s| + n..]);
      WhiteLast(s + b);
      BlankEnd(s, b[..n]);
    }
  }

  lemma WhiteLast(s: string)
    requires s != "" && White(s[|s| - 1..])
    ensures TrimEnd(s) == TrimEnd(s[..|s| - 1])
  {
    hide White;
  }

  /** Blanks around a text are trimmed, and nothing else. */
  lemma TrimAround(a: string, s: string, b: string)
    requires Blank(a) && Blank(b) && Bare(s)
    ensures Trim(a + s + b) == s
  {
    hide TrimStart, TrimEnd;
    assert a + s + b == a + (s + b);
    BlankStart(a, s + b);
    if s == "" {
      assert s + b == b + "";
      BlankStart(b, "");
      NothingToTrim();
    } else {
      SolidFirst(s + b);
      BlankEnd(s, b);
      SolidLast(s);
    }
  }

  lemma NothingToTrim()
    ensures TrimStart("") == "" && TrimEnd("") == ""
  {
  }

  // ---------- ordinary length and encoding headers ----------

  lemma {:induction false} LookupThrough(a: seq<(string, string)>, b: seq<(string, string)>, name: string)
    requires Lookup(Normals(a), name).None?
    ensures Lookup(Normals(a + b), name) == Lookup(Normals(b), name)
  {
    hide Normal;
    if a == [] {
      assert a + b == b;
    } else {
      assert (a + b)[1..] == a[1..] + b;
      assert Normals(a)[1..] == Normals(a[1..]);
      LookupThrough(a[1..], b, name);
      assert Normals(a + b)[1..] == Normals(a[1..] + b);
    }
  }

  /** The usual spelling of the headers' names is recognized. */
  lemma UsualName()
    ensures Lower(Trim("Content-Length")) == "content-length"
    ensures Lower(Trim("Transfer-Encoding")) == "transfer-encoding"
  {
    hide Trim;
    SolidUntrimmed("Content-Length");
    SolidUntrimmed("Transfer-Encoding");
    assert Lower("Content-Length") == "content-length";
    assert Lower("Transfer-Encoding") == "transfer-encoding";
  }

  /** The first header of a name, among others. */
  lemma LookupFirst(
    before: seq<(string, string)>, h: (string, string), after: seq<(string, string)>, name: string)
    requires Lookup(Normals(before), name).None?
    ensures Lookup(Normals(before + [h] + after), name) ==
      if Lower(Trim(h.0)) == name then Some(Trim(h.1)) else Lookup(Normals(after), name)
  {
    hide Trim, Lower;
    assert before + [h] + after == before + ([h] + after);
    LookupThrough(before, [h] + after, name);
    assert ([h] + after)[0] == h && ([h] + after)[1..] == after;
    assert Normals([h] + after)[0] == Normal(h.0, h.1);
    assert Normals([h] + after)[1..] == Normals(after);
  }

  /**
   A body with its length in decimal is well formed: the first length header, however its
   name is spelled, holds the length between any blanks, and no transfer encoding is named.
   */
  lemma PlainLength(
    before: seq<(string, string)>, name: string, a: string, b: string, after: seq<(string, string)>, body: string)
    requires Lower(Trim(name)) == "content-length" && |body| <= MAX_BODY_BYTES && Blank(a) && Blank(b)
    requires Lookup(Normals(before), "content-length").None?
    requires Lookup(Normals(before + [(name, a + Decimal(|body|) + b)] + after), "transfer-encoding").None?
    ensures GoodPayload(Whole(body), Normals(before + [(name, a + Decimal(|body|) + b)] + after))
  {
    hide Trim, ParseSize, Lower, Lookup, Decimal;
    LookupFirst(before, (name, a + Decimal(|body|) + b), after, "content-length");
    LengthReads(|body|);
    TrimAround(a, Decimal(|body|), b);
  }

  /** A body after a "Content-Length" header with its length, among headers that say nothing
      about length or encoding, is well formed. */
  lemma UsualLength(
    before: seq<(string, string)>, a: string, b: string, after: seq<(string, string)>, body: string)
    requires |body| <= MAX_BODY_BYTES && Blank(a) && Blank(b)
    requires Lookup(Normals(before), "content-length").None?
    requires Lookup(Normals(before), "transfer-encoding").None? && Lookup(Normals(after), "transfer-encoding").None?
    ensures GoodPayload(Whole(body), Normals(before + [("Content-Length", a + Decimal(|body|) + b)] + after))
  {
    hide Trim, Lower, GoodPayload, Decimal, Blank;
    UsualName();
    LookupFirst(before, ("Content-Length", a + Decimal(|body|) + b), after, "transfer-encoding");
    PlainLength(before, "Content-Length", a, b, after, body);
  }

  /** Chunks after a "Transfer-Encoding: chunked" header are well formed, whatever the headers
      say about length. */
  lemma UsualChunked(
    before: seq<(string, string)>, a: string, b: string, after: seq<(string, string)>, chunks: seq<Chunk>)
    requires Lookup(Normals(before), "transfer-encoding").None? && Blank(a) && Blank(b)
    requires |Concat(chunks)| <= MAX_BODY_BYTES && forall i :: 0 <= i < |chunks| ==> GoodChunk(chunks[i])
    ensures GoodPayload(Chunked(chunks, "0", []), Normals(before + [("Transfer-Encoding", a + "chunked" + b)] + after))
  {
    hide Trim, Lookup, GoodChunk, Concat, Lower, Contains, GoodLast;
    UsualName();
    LookupFirst(before, ("Transfer-Encoding", a + "chunked" + b), after, "transfer-encoding");
    TrimAround(a, "chunked", b);
    ChunkedIsChunked();
    LastIsGood();
  }

  lemma ChunkedIsChunked()
    ensures Contains(Lower("chunked"), "chunked")
  {
    assert Lower("chunked") == "chunked";
  }

  lemma LastIsGood()
    ensures GoodLast("0", [])
  {
    hide ChunkSize, CleanLine;
    HexSize(0);
    assert Hex(0) == "0";
  }

  lemma LengthReads(n: nat)
    requires n <= USIZE_MAX
    ensures Bare(Decimal(n)) && ParseSize(Decimal(n), 10) == Some(n)
  {
    hide Decimal;
    var s := Decimal(n);
    assert IsDigit(s[0]) && IsDigit(s[|s| - 1]);
    DecimalValue(n);
  }
}
