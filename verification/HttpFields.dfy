/**
 What the bytes of one request are read as, spelled out from what the client wrote: lines,
 header fields, the request line, and the body that the fields announce.
 */
module HttpFields {
  import opened Options
  import opened Text
  import opened Http
  import opened HttpFraming

  /** `lower` is `s` with its capital letters replaced. */
  predicate Spells(s: string, lower: string) {
    && |s| == |lower|
    && forall i :: 0 <= i < |s| ==>
         lower[i] as int == if 'A' <= s[i] <= 'Z' then s[i] as int + 32 else s[i] as int
  }

  lemma SpellsIsLower(s: string, lower: string)
    ensures Spells(s, lower) <==> Lower(s) == lower
  {
    if Spells(s, lower) {
      forall i | 0 <= i < |s| ensures Lower(s)[i] == lower[i] {
        assert lower[i] as int == LowerChar(s[i]) as int;
      }
    }
  }

  // ---------- lines ----------

  function Returns(k: nat): string { seq(k, i => '\r') }

  lemma {:induction false} StripReturns(line: string, k: nat)
    requires line != "" ==> line[|line| - 1] != '\n' && line[|line| - 1] != '\r'
    ensures Strip(line + Returns(k)) == line
    decreases k
  {
    var s := line + Returns(k);
    if k == 0 {
      assert s == line;
    } else {
      assert s[..|s| - 1] == line + Returns(k - 1);
      StripReturns(line, k - 1);
    }
  }

  /**
   A line ends at its newline; all carriage returns before it belong to the ending. A line longer
   than the budget is refused with 431, one that is not UTF-8 with 400.
   */
  lemma LineMeaning(line: string, k: nat, rest: string, budget: nat)
    requires '\n' !in line && (line != "" ==> line[|line| - 1] != '\r')
    ensures ReadLine(line + Returns(k) + "\n" + rest, budget) ==
      if |line| + k + 1 > budget then Bad(431) else if Utf8(line) then Ok(Some(line), rest) else Bad(400)
  {
    hide Utf8, Strip, ReadLine;
    var start := line + Returns(k);
    assert '\n' !in start;
    StartReads(start, rest, budget);
    StripReturns(line, k);
  }

  /** Up to the newline, whatever the line ends with. */
  lemma StartReads(start: string, rest: string, budget: nat)
    requires '\n' !in start
    ensures ReadLine(start + "\n" + rest, budget) ==
      if |start| + 1 > budget then Bad(431)
      else if Utf8(Strip(start)) then Ok(Some(Strip(start)), rest)
      else Bad(400)
  {
    hide Utf8, Strip;
    var s := start + "\n" + rest;
    var n := |start| + 1;
    IndexOfFirst(start, '\n', rest);
    assert s == start + ['\n'] + rest && s[..n] == start + ['\n'] && s[n..] == rest;
    StripNewline(start);
  }

  lemma StripNewline(start: string)
    ensures Strip(start + ['\n']) == Strip(start)
  {
    assert (start + ['\n'])[..|start|] == start;
  }

  /** Bytes without a newline: nothing at the end of the input, a lost connection otherwise, and
      431 once they exceed the budget. */
  lemma NoNewline(s: string, budget: nat)
    requires '\n' !in s
    ensures ReadLine(s, budget) == if s == "" then Ok(None, s) else if |s| > budget then Bad(431) else Closed
  {
    hide Utf8, Strip;
    IndexOfNone(s, '\n');
  }

  // ---------- header fields ----------

  /** A header as written: a name, a colon, and a value between blanks. */
  datatype Field = Field(name: string, left: string, value: string, right: string)

  function Line(f: Field): (string, string) { (f.name, f.left + f.value + f.right) }

  predicate Written(f: Field) {
    f.name != "" && Bare(f.name) && Bare(f.value) && Blank(f.left) && Blank(f.right)
  }

  /** The name in lower case, and exactly the value. */
  predicate ReadAs(f: Field, h: Header) { Spells(f.name, h.0) && h.1 == f.value }

  predicate Carries(lines: seq<(string, string)>, fields: seq<Field>, headers: seq<Header>) {
    && |lines| == |fields| == |headers|
    && forall i :: 0 <= i < |fields| ==>
         lines[i] == Line(fields[i]) && Written(fields[i]) && ReadAs(fields[i], headers[i])
  }

  lemma FieldReads(f: Field, h: Header)
    requires Written(f) && ReadAs(f, h)
    ensures Normal(Line(f).0, Line(f).1) == h
  {
    hide Trim, Spells, Lower;
    SolidUntrimmed(f.name);
    TrimAround(f.left, f.value, f.right);
    SpellsIsLower(f.name, h.0);
  }

  lemma {:induction false} FieldsRead(lines: seq<(string, string)>, fields: seq<Field>, headers: seq<Header>)
    requires Carries(lines, fields, headers)
    ensures Normals(lines) == headers
    decreases |lines|
  {
    hide Normal, Written, ReadAs, Line;
    if lines != [] {
      FieldReads(fields[0], headers[0]);
      FieldsRead(lines[1..], fields[1..], headers[1..]);
      assert headers == [headers[0]] + headers[1..];
    }
  }

  /** A head is read as its request line and its fields, and the bytes after it stay unread. */
  lemma HeadReads(w: Wire, fields: seq<Field>, headers: seq<Header>, rest: string)
    requires GoodHead(w) && Carries(w.headers, fields, headers)
    ensures ReadHead(HeadBytes(w) + rest) == Ok(Head(w.verb, w.target, w.version, headers), rest)
  {
    hide GoodHead, ReadHead, HeadBytes, Normals, Carries;
    FieldsRead(w.headers, fields, headers);
    ReadGoodHead(w, rest);
  }

  // ---------- heads that are refused ----------

  /** How often `c` occurs. */
  function Count(s: string, c: char): nat {
    if s == "" then 0 else (if s[0] == c then 1 else 0) + Count(s[1..], c)
  }

  lemma {:induction false} CountSplits(s: string, c: char)
    ensures match Split(s, c)
      case None => Count(s, c) == 0
      case Some((a, b)) => Count(s, c) == 1 + Count(b, c)
    decreases |s|
  {
    if s != "" && s[0] != c {
      CountSplits(s[1..], c);
      assert IndexOf(s, c) == 1 + IndexOf(s[1..], c);
      assert c in s[1..] ==> s[IndexOf(s, c) + 1..] == s[1..][IndexOf(s[1..], c) + 1..];
    }
  }

  lemma {:induction false} CountNone(s: string, c: char)
    ensures c in s <==> Count(s, c) > 0
  {
    if s != "" {
      CountNone(s[1..], c);
    }
  }

  lemma SplitThreeMeaning(line: string)
    ensures SplitThree(line).None? <==> Count(line, ' ') != 2
  {
    hide Split, Count;
    CountSplits(line, ' ');
    var a := Split(line, ' ');
    if a.Some? {
      CountSplits(a.value.1, ' ');
      var b := Split(a.value.1, ' ');
      if b.Some? {
        CountNone(b.value.1, ' ');
      }
    }
  }

  /** A request line is refused with 400 unless it has exactly two spaces. */
  lemma RefusedFirstLine(blank: nat, line: string, rest: string)
    requires line != "" && CleanLine(line) && |Blanks(blank)| + |Ended(line)| <= MAX_HEAD_BYTES
    ensures Count(line, ' ') != 2 ==> ReadHead(Blanks(blank) + (Ended(line) + rest)) == Bad(400)
  {
    hide ReadFirst, ReadHeaders, SplitThree, Blanks, Ended, CleanLine, Count;
    ReadBlanks(blank, line, rest, MAX_HEAD_BYTES);
    SplitThreeMeaning(line);
  }

  /** A version other than 1.0 and 1.1 is refused with 505. */
  lemma RefusedVersion(blank: nat, verb: string, target: string, version: string, rest: string)
    requires ' ' !in verb && ' ' !in target && ' ' !in version && version != "HTTP/1.1" && version != "HTTP/1.0"
    requires CleanLine(verb + " " + target + " " + version)
    requires |Blanks(blank)| + |Ended(verb + " " + target + " " + version)| <= MAX_HEAD_BYTES
    ensures ReadHead(Blanks(blank) + (Ended(verb + " " + target + " " + version) + rest)) == Bad(505)
  {
    hide ReadFirst, ReadHeaders, SplitThree, Blanks, Ended, CleanLine;
    ReadBlanks(blank, verb + " " + target + " " + version, rest, MAX_HEAD_BYTES);
    ThreeParts(verb, target, version);
  }

  lemma ThreeParts(a: string, b: string, c: string)
    requires ' ' !in a && ' ' !in b && ' ' !in c
    ensures SplitThree(a + " " + b + " " + c) == Some((a, b, c))
  {
    hide Split;
    assert a + " " + b + " " + c == a + [' '] + (b + [' '] + c);
    Splits(a, ' ', b + [' '] + c);
    Splits(b, ' ', c);
  }

  /** Header lines are read one after the other, whatever follows them. */
  lemma {:induction false} HeadersThrough(hs: seq<(string, string)>, acc: seq<Header>, more: string, budget: nat)
    requires |acc| + |hs| <= MAX_HEADERS && (forall i :: 0 <= i < |hs| ==> GoodHeader(hs[i]))
    requires |HeaderBytes(hs)| <= budget
    ensures ReadHeaders(HeaderBytes(hs) + more, budget, acc)
      == ReadHeaders(more, budget - |HeaderBytes(hs)|, acc + Normals(hs))
    decreases |hs|
  {
    hide ReadHeaders, ReadLine, CleanLine, Normal, HeaderLine, Ended;
    NormalsFirst(acc, hs);
    if hs == [] {
      assert HeaderBytes(hs) + more == more;
    } else {
      var line, h := HeaderLine(hs[0]), Normal(hs[0].0, hs[0].1);
      var tail := HeaderBytes(hs[1..]) + more;
      assert HeaderBytes(hs) + more == Ended(line) + tail;
      ReadEnded(line, tail, budget);
      HeadersStep(Ended(line) + tail, budget, acc, hs[0], tail);
      HeadersThrough(hs[1..], acc + [h], more, budget - |Ended(line)|);
    }
  }

  /** After any good headers, a line without a colon is refused with 400, and a line after the
      hundredth header with 431. */
  lemma RefusedHeader(hs: seq<(string, string)>, line: string, rest: string, budget: nat)
    requires |hs| <= MAX_HEADERS && (forall i :: 0 <= i < |hs| ==> GoodHeader(hs[i]))
    requires line != "" && CleanLine(line) && |HeaderBytes(hs)| + |Ended(line)| <= budget
    ensures var r := ReadHeaders(HeaderBytes(hs) + (Ended(line) + rest), budget, []);
      (|hs| == 100 ==> r == Bad(431)) && (|hs| < 100 && ':' !in line ==> r == Bad(400))
  {
    hide ReadLine, CleanLine, HeaderBytes, Ended, Normals, IndexOf;
    var left := budget - |HeaderBytes(hs)|;
    HeadersThrough(hs, [], Ended(line) + rest, budget);
    ReadEnded(line, rest, left);
    assert [] + Normals(hs) == Normals(hs);
    if ':' !in line {
      IndexOfNone(line, ':');
    }
  }

  // ---------- what the fields announce ----------

  predicate Absent(headers: seq<Header>, name: string) {
    forall i :: 0 <= i < |headers| ==> headers[i].0 != name
  }

  /** The first header of this name is number `k`. */
  predicate FirstAt(headers: seq<Header>, k: nat, name: string) {
    k < |headers| && headers[k].0 == name && Absent(headers[..k], name)
  }

  lemma {:induction false} AbsentIsNone(headers: seq<Header>, name: string)
    requires Absent(headers, name)
    ensures Lookup(headers, name) == None
  {
    if headers != [] {
      AbsentIsNone(headers[1..], name);
    }
  }

  lemma {:induction false} FirstIsFound(headers: seq<Header>, k: nat, name: string)
    requires FirstAt(headers, k, name)
    ensures Lookup(headers, name) == Some(headers[k].1)
    decreases k
  {
    if k > 0 {
      assert headers[..k][0] == headers[0];
      assert headers[1..][..k - 1] == headers[..k][1..];
      FirstIsFound(headers[1..], k - 1, name);
    }
  }

  /** The word stands somewhere in `s`, in any spelling. */
  ghost predicate Has(s: string, word: string) {
    exists i: nat :: Stands(s, word, i)
  }

  predicate Stands(s: string, word: string, i: nat) {
    i + |word| <= |s| && Spells(s[i..i + |word|], word)
  }

  lemma StandsIsOccurs(s: string, word: string, i: nat)
    ensures Stands(s, word, i) <==> OccursAt(Lower(s), word, i)
  {
    hide Spells;
    if i + |word| <= |s| {
      var part := s[i..i + |word|];
      SpellsIsLower(part, word);
      assert Lower(s)[i..][..|word|] == Lower(part);
    }
  }

  lemma HasIsContains(s: string, word: string)
    ensures Has(s, word) <==> Contains(Lower(s), word)
  {
    hide Stands, OccursAt, Contains, Lower;
    ContainsMeaning(Lower(s), word);
    forall i: nat ensures Stands(s, word, i) <==> OccursAt(Lower(s), word, i) {
      StandsIsOccurs(s, word, i);
    }
    if i :| OccursAt(Lower(s), word, i) {
      NotBefore(Lower(s), word, i);
      assert Stands(s, word, i);
    }
  }

  lemma NotBefore(s: string, word: string, i: int)
    requires OccursAt(s, word, i)
    ensures 0 <= i
  {
  }

  ghost predicate ConnectionSays(headers: seq<Header>, word: string) {
    exists k: nat :: FirstAt(headers, k, "connection") && Has(headers[k].1, word)
  }

  /**
   Whether the connection ends after a request: on HTTP/1.1 exactly when the first `connection`
   field has the word "close", on HTTP/1.0 exactly unless it has "keep-alive".
   */
  ghost predicate Last(w: Wire, headers: seq<Header>) {
    if w.version == "HTTP/1.0" then !ConnectionSays(headers, "keep-alive") else ConnectionSays(headers, "close")
  }

  lemma {:induction false} FirstOrAbsent(headers: seq<Header>, name: string) returns (k: nat)
    ensures if Absent(headers, name) then k == |headers| else FirstAt(headers, k, name)
  {
    if headers == [] || headers[0].0 == name {
      k := 0;
    } else {
      var j := FirstOrAbsent(headers[1..], name);
      k := j + 1;
      if !Absent(headers[1..], name) {
        assert headers[..k] == [headers[0]] + headers[1..][..j];
        assert FirstAt(headers, k, name);
      } else {
        assert headers == [headers[0]] + headers[1..];
      }
    }
  }

  lemma FirstIsOne(headers: seq<Header>, j: nat, k: nat, name: string)
    requires FirstAt(headers, j, name) && FirstAt(headers, k, name)
    ensures j == k
  {
    NotEarlier(headers, j, k, name);
    NotEarlier(headers, k, j, name);
  }

  lemma NotEarlier(headers: seq<Header>, j: nat, k: nat, name: string)
    requires FirstAt(headers, k, name) && j < |headers| && headers[j].0 == name
    ensures k <= j
  {
    assert forall i :: 0 <= i < k ==> headers[..k][i] == headers[i];
  }

  lemma ConnectionHas(headers: seq<Header>, word: string)
    requires word != ""
    ensures Contains(Lower(LookupOr(headers, "connection")), word)
      <==> ConnectionSays(headers, word)
  {
    hide Has, FirstAt, Contains, Lower, Lookup;
    var k := FirstOrAbsent(headers, "connection");
    if Absent(headers, "connection") {
      AbsentIsNone(headers, "connection");
      EmptyHasNot(word);
      NeverFirst(headers, "connection");
    } else {
      FirstIsFound(headers, k, "connection");
      FirstWithin(headers, k, "connection");
      HasIsContains(headers[k].1, word);
      forall j: nat | FirstAt(headers, j, "connection") ensures j == k {
        FirstIsOne(headers, j, k, "connection");
      }
    }
  }

  lemma FirstWithin(headers: seq<Header>, k: nat, name: string)
    requires FirstAt(headers, k, name)
    ensures k < |headers|
  {
  }

  lemma NeverFirst(headers: seq<Header>, name: string)
    requires Absent(headers, name)
    ensures forall k: nat :: !FirstAt(headers, k, name)
  {
  }

  lemma EmptyHasNot(word: string)
    requires word != ""
    ensures !Contains(Lower(""), word)
  {
    assert Lower("") == "";
  }

  lemma LastIsCloses(w: Wire, headers: seq<Header>)
    ensures Closes(Head(w.verb, w.target, w.version, headers)) <==> Last(w, headers)
  {
    hide Contains, Lower, LookupOr, ConnectionSays;
    ConnectionHas(headers, "keep-alive");
    ConnectionHas(headers, "close");
  }

  /** The request that the fields of `w` make with this body. */
  ghost function Told(w: Wire, headers: seq<Header>, body: string): Request {
    Request(w.verb, w.target, headers, body, Last(w, headers), false)
  }

  lemma RequestInParts(
    w: Wire, fields: seq<Field>, headers: seq<Header>, admit: Request -> bool, after: string)
    requires GoodHead(w) && Carries(w.headers, fields, headers)
    ensures ReadRequest(HeadBytes(w) + after, admit) ==
      if !admit(Told(w, headers, "")) then Ok(Told(w, headers, "").(close := true, drain := true), after)
      else
        match ReadBody(after, headers)
        case Ok(body, rest) => Ok(Told(w, headers, body), rest)
        case Closed => Closed
        case Bad(status) => Bad(status)
        case Crash => Crash
  {
    hide ReadHead, ReadBody, GoodHead, HeadBytes, Closes, Last;
    HeadReads(w, fields, headers, after);
    LastIsCloses(w, headers);
  }

  /** A head that is not admitted leaves its body unread and ends the connection. */
  lemma RefusedRequest(
    w: Wire, fields: seq<Field>, headers: seq<Header>, admit: Request -> bool, after: string)
    requires GoodHead(w) && Carries(w.headers, fields, headers) && !admit(Told(w, headers, ""))
    ensures ReadRequest(HeadBytes(w) + after, admit) == Ok(Request(w.verb, w.target, headers, "", true, true), after)
  {
    hide ReadRequest, ReadBody, GoodHead, Carries, HeadBytes, Last;
    RequestInParts(w, fields, headers, admit, after);
  }

  /** Without a length and an encoding there is no body. */
  lemma BodilessRequest(
    w: Wire, fields: seq<Field>, headers: seq<Header>, admit: Request -> bool, after: string)
    requires GoodHead(w) && Carries(w.headers, fields, headers) && admit(Told(w, headers, ""))
    requires Absent(headers, "transfer-encoding") && Absent(headers, "content-length")
    ensures ReadRequest(HeadBytes(w) + after, admit) == Ok(Told(w, headers, ""), after)
  {
    hide ReadRequest, GoodHead, Carries, HeadBytes, Last, Absent, Lookup;
    RequestInParts(w, fields, headers, admit, after);
    AbsentIsNone(headers, "transfer-encoding");
    AbsentIsNone(headers, "content-length");
  }

  /** Told by its length in decimal: the body is that many bytes, within the limit. */
  lemma LengthRequest(
    w: Wire, fields: seq<Field>, headers: seq<Header>, k: nat, n: nat, admit: Request -> bool, after: string)
    requires GoodHead(w) && Carries(w.headers, fields, headers) && admit(Told(w, headers, ""))
    requires Absent(headers, "transfer-encoding")
    requires FirstAt(headers, k, "content-length") && headers[k].1 == Decimal(n)
    ensures ReadRequest(HeadBytes(w) + after, admit) ==
      if n > 0xFFFF_FFFF_FFFF_FFFF then Bad(400)
      else if n > 64 * 1024 * 1024 then Bad(413)
      else if |after| < n then Closed
      else Ok(Told(w, headers, after[..n]), after[n..])
  {
    hide ReadRequest, GoodHead, Carries, HeadBytes, Last, Absent, FirstAt, Lookup, ParseSize, Decimal;
    RequestInParts(w, fields, headers, admit, after);
    AbsentIsNone(headers, "transfer-encoding");
    FirstIsFound(headers, k, "content-length");
    DecimalParses(n);
  }

  lemma DecimalParses(n: nat)
    ensures ParseSize(Decimal(n), 10) == if n > 0xFFFF_FFFF_FFFF_FFFF then None else Some(n)
  {
    hide Decimal;
    var s := Decimal(n);
    assert IsDigit(s[0]);
    DecimalValue(n);
  }

  /** A length that holds anything but digits, after one plus sign at most, is refused. */
  lemma MalformedLength(
    w: Wire, fields: seq<Field>, headers: seq<Header>, k: nat, j: nat, admit: Request -> bool, after: string)
    requires GoodHead(w) && Carries(w.headers, fields, headers) && admit(Told(w, headers, ""))
    requires Absent(headers, "transfer-encoding") && FirstAt(headers, k, "content-length")
    requires j < |headers[k].1| && !IsDigit(headers[k].1[j]) && (j == 0 ==> headers[k].1[j] != '+')
    ensures ReadRequest(HeadBytes(w) + after, admit) == Bad(400)
  {
    hide ReadRequest, GoodHead, Carries, HeadBytes, Last, Absent, FirstAt, Lookup, Value;
    RequestInParts(w, fields, headers, admit, after);
    AbsentIsNone(headers, "transfer-encoding");
    FirstIsFound(headers, k, "content-length");
    FirstWithin(headers, k, "content-length");
    var v := headers[k].1;
    if v[0] == '+' {
      assert v[1..][j - 1] == v[j];
      NotANumber(v[1..], j - 1);
    } else {
      NotANumber(v, j);
    }
  }

  lemma {:induction false} NotANumber(s: string, j: nat)
    requires j < |s| && !IsDigit(s[j])
    ensures Value(s, 10) == None
    decreases |s|
  {
    if j < |s| - 1 {
      NotANumber(s[..|s| - 1], j);
    }
  }

  /** Told by its encoding: the body is the chunks in order, whatever a length says. */
  lemma ChunkedRequest(
    w: Wire, fields: seq<Field>, headers: seq<Header>, k: nat, chunks: seq<Chunk>, last: string,
    trailers: seq<string>, admit: Request -> bool, rest: string)
    requires GoodHead(w) && Carries(w.headers, fields, headers) && admit(Told(w, headers, ""))
    requires FirstAt(headers, k, "transfer-encoding") && Has(headers[k].1, "chunked")
    requires GoodLast(last, trailers) && forall i :: 0 <= i < |chunks| ==> GoodChunk(chunks[i])
    requires |Concat(chunks)| <= MAX_BODY_BYTES
    ensures ReadRequest(HeadBytes(w) + (ChunkBytes(chunks) + LastBytes(last, trailers) + rest), admit)
      == Ok(Told(w, headers, Concat(chunks)), rest)
  {
    hide ReadRequest, GoodHead, Carries, HeadBytes, Last, FirstAt, Lookup, Has, Contains, Lower;
    hide GoodLast, GoodChunk, ChunkBytes, LastBytes, Concat, ReadChunks;
    RequestInParts(w, fields, headers, admit, ChunkBytes(chunks) + LastBytes(last, trailers) + rest);
    FirstIsFound(headers, k, "transfer-encoding");
    FirstWithin(headers, k, "transfer-encoding");
    HasIsContains(headers[k].1, "chunked");
    ReadGoodChunks(chunks, last, trailers, rest);
  }

  // ---------- chunk size lines ----------

  /** A size line: blanks, hexadecimal digits in either case, blanks, perhaps an extension. */
  lemma SizeLine(n: nat, digits: string, left: string, right: string, extension: string)
    requires n <= USIZE_MAX && Spells(digits, Hex(n)) && Blank(left) && Blank(right)
    requires extension != "" ==> extension[0] == ';'
    ensures ChunkSize(left + digits + right + extension) == Some(n)
  {
    hide Hex, Trim, Spells, Value;
    SpelledDigits(n, digits);
    var size := left + digits + right;
    assert ';' !in size;
    if extension == "" {
      IndexOfNone(size, ';');
      assert size + extension == size && size[..|size|] == size;
    } else {
      IndexOfFirst(size, ';', extension[1..]);
      assert size + extension == size + [';'] + extension[1..];
      assert (size + extension)[..|size|] == size;
    }
    TrimAround(left, digits, right);
  }

  lemma SpelledDigits(n: nat, digits: string)
    requires Spells(digits, Hex(n))
    ensures Bare(digits) && digits != "" && digits[0] != '+' && ';' !in digits && Value(digits, 16) == Some(n)
  {
    hide Hex, Value, Spells;
    SpelledPointwise(digits, Hex(n));
    NoMark(digits);
    SameValue(digits, Hex(n));
    HexValue(n);
  }

  lemma SpelledPointwise(a: string, b: string)
    requires Spells(a, b) && forall i :: 0 <= i < |b| ==> 0 <= HexDigit(b[i]) < 16
    ensures |a| == |b| && forall i :: 0 <= i < |a| ==> HexDigit(a[i]) == HexDigit(b[i]) && HexDigit(a[i]) >= 0
  {
    forall i | 0 <= i < |a| ensures HexDigit(a[i]) == HexDigit(b[i]) {
    }
  }

  lemma NoMark(s: string)
    requires s != "" && forall i :: 0 <= i < |s| ==> HexDigit(s[i]) >= 0
    ensures Bare(s) && s[0] != '+' && ';' !in s
  {
    assert HexDigit(';') < 0;
  }

  lemma {:induction false} SameValue(a: string, b: string)
    requires |a| == |b| && forall i :: 0 <= i < |a| ==> HexDigit(a[i]) == HexDigit(b[i])
    ensures Value(a, 16) == Value(b, 16)
    decreases |a|
  {
    hide HexDigit;
    if a != "" {
      SameValue(a[..|a| - 1], b[..|b| - 1]);
    }
  }
}
