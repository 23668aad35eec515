/** The reader as the program runs it: a position that moves through the connection's bytes. */
module HttpReader {
  import opened Options
  import opened Text
  import opened Http
  import opened HttpFraming

  datatype Result<+T> = Value(value: T) | Gone | Refused(status: nat) | Aborted

  /** The method's result and the bytes it leaves are the ones the function gives. */
  predicate Agrees<T(==)>(r: Result<T>, o: Outcome<T>, left: string) {
    match o
    case Ok(value, rest) => r == Value(value) && left == rest
    case Closed => r == Gone
    case Bad(status) => r == Refused(status)
    case Crash => r == Aborted
  }

  class Reader {
    const data: string
    var pos: nat

    ghost predicate Valid()
      reads this
    {
      pos <= |data|
    }

    ghost function Rest(): string
      requires Valid()
      reads this
    {
      data[pos..]
    }

    constructor (data: string)
      ensures Valid() && Rest() == data
    {
      this.data := data;
      pos := 0;
    }

    /** `read_until`: through the newline, but never more than `limit` bytes. */
    method ReadUntil(budget: nat) returns (line: string)
      requires Valid()
      modifies this
      ensures Valid() && line + Rest() == old(Rest()) && |line| == Taken(old(Rest()), budget)
    {
      var start := pos;
      ghost var s := Rest();
      var n := IndexOf(s, '\n');
      while pos < |data| && pos - start < budget + 1 && (pos == start || data[pos - 1] != '\n')
        invariant start <= pos <= |data|
        invariant pos - start <= budget + 1 && pos - start <= n + 1
        decreases |data| - pos
      {
        assert data[pos] == s[pos - start];
        assert pos > start ==> data[pos - 1] == s[pos - 1 - start];
        pos := pos + 1;
      }
      line := data[start..pos];
      assert pos > start ==> data[pos - 1] == s[pos - 1 - start];
    }

    /** One line without its ending, charged to the budget. */
    method ReadLine(budget: nat) returns (r: Result<Option<string>>, left: nat)
      requires Valid()
      modifies this
      ensures Valid() && Agrees(r, Http.ReadLine(old(Rest()), budget), Rest())
      ensures r.Value? ==> left == Left(budget, old(Rest()), Rest())
      ensures r.Value? && r.value.Some? ==> |Rest()| < |old(Rest())|
    {
      ghost var s := Rest();
      var line := ReadUntil(budget);
      var read := |line|;
      assert line == s[..read] && Rest() == s[read..];
      if read == 0 {
        return Value(None), budget;
      }
      if read > budget {
        return Refused(431), budget;
      }
      if line[read - 1] != '\n' {
        return Gone, budget;
      }
      while line != "" && line[|line| - 1] in {'\n', '\r'}
        invariant Strip(line) == Strip(s[..read])
        decreases |line|
      {
        line := line[..|line| - 1];
      }
      if Utf8(line) {
        return Value(Some(line)), budget - read;
      }
      return Refused(400), budget;
    }

    /** The request line, after any blank lines; every turn of the loop spends budget. */
    method ReadRequestLine() returns (r: Result<string>, left: nat)
      requires Valid()
      modifies this
      ensures Valid() && Agrees(r, ReadFirst(old(Rest()), MAX_HEAD_BYTES), Rest())
      ensures r.Value? ==> left == Left(MAX_HEAD_BYTES, old(Rest()), Rest())
    {
      hide Http.ReadLine;
      left := MAX_HEAD_BYTES;
      ghost var s := Rest();
      while true
        invariant Valid() && |Rest()| <= |s| && |s| - |Rest()| + left == MAX_HEAD_BYTES
        invariant ReadFirst(Rest(), left) == ReadFirst(s, MAX_HEAD_BYTES)
        decreases left
      {
        var line, budget := ReadLine(left);
        if line.Gone? || line.Refused? {
          return if line.Gone? then Gone else Refused(line.status), 0;
        }
        if line.value.None? {
          return Gone, 0;
        }
        left := budget;
        if line.value.value != "" {
          return Value(line.value.value), left;
        }
      }
    }

    method ReadHeaderLines(budget: nat) returns (r: Result<seq<Header>>)
      requires Valid()
      modifies this
      ensures Valid() && Agrees(r, ReadHeaders(old(Rest()), budget, []), Rest())
    {
      hide Http.ReadLine, Normal;
      var headers: seq<Header> := [];
      var left := budget;
      ghost var goal := ReadHeaders(Rest(), budget, []);
      while true
        invariant Valid() && |headers| <= MAX_HEADERS
        invariant ReadHeaders(Rest(), left, headers) == goal
        decreases left
      {
        var line, after := ReadLine(left);
        if line.Gone? || line.Refused? {
          return if line.Gone? then Gone else Refused(line.status);
        }
        if line.value.None? {
          return Gone;
        }
        if line.value.value == "" {
          return Value(headers);
        }
        if |headers| >= MAX_HEADERS {
          return Refused(431);
        }
        var parts := Split(line.value.value, ':');
        if parts.None? {
          return Refused(400);
        }
        headers := headers + [Normal(parts.value.0, parts.value.1)];
        left := after;
      }
    }

    method ReadBytes(n: nat) returns (r: Result<string>)
      requires Valid()
      modifies this
      ensures Valid() && Agrees(r, ReadExact(old(Rest()), n), Rest())
    {
      ghost var s := Rest();
      if |data| - pos < n {
        return Gone;
      }
      r := Value(data[pos..pos + n]);
      pos := pos + n;
      assert r.value == s[..n] && Rest() == s[n..];
    }

    method SkipTrailers() returns (r: Result<()>)
      requires Valid()
      modifies this
      ensures Valid() && Agrees(r, ReadTrailers(old(Rest()), MAX_HEAD_BYTES), Rest())
    {
      hide Http.ReadLine;
      var left := MAX_HEAD_BYTES;
      ghost var goal := ReadTrailers(Rest(), MAX_HEAD_BYTES);
      while true
        invariant Valid() && ReadTrailers(Rest(), left) == goal
        decreases left
      {
        var line, after := ReadLine(left);
        if line.Gone? || line.Refused? {
          return if line.Gone? then Gone else Refused(line.status);
        }
        if line.value.None? {
          return Gone;
        }
        if line.value.value == "" {
          return Value(());
        }
        left := after;
      }
    }

    /** The bytes of one chunk and the line ending after them. */
    method ReadChunkData(size: nat) returns (r: Result<string>)
      requires Valid()
      modifies this
      ensures Valid() && Agrees(r, ReadChunk(old(Rest()), size), Rest())
      ensures r.Value? ==> |Rest()| <= |old(Rest())|
    {
      hide Http.ReadLine;
      r := ReadBytes(size);
      if !r.Value? {
        return;
      }
      var line, _ := ReadLine(2);
      if line.Gone? {
        return Gone;
      }
      if line.Refused? {
        return Refused(line.status);
      }
      if line.value != Some("") {
        return Refused(400);
      }
    }

    method ReadChunked() returns (r: Result<string>)
      requires Valid()
      modifies this
      ensures Valid() && Agrees(r, ReadChunks(old(Rest()), ""), Rest())
    {
      hide Http.ReadLine, ReadChunk, ReadTrailers, ChunkSize;
      var body := "";
      ghost var goal := ReadChunks(Rest(), "");
      while true
        invariant Valid() && |body| <= MAX_BODY_BYTES && ReadChunks(Rest(), body) == goal
        decreases |Rest()|
      {
        var line, _ := ReadLine(MAX_SIZE_LINE);
        if line.Gone? || line.Refused? {
          return if line.Gone? then Gone else Refused(line.status);
        }
        if line.value.None? {
          return Gone;
        }
        var size := ChunkSize(line.value.value);
        if size.None? {
          return Refused(400);
        }
        if size.value == 0 {
          var end := SkipTrailers();
          return match end case Value(_) => Value(body) case Gone => Gone case Refused(status) => Refused(status);
        }
        if |body| + size.value > USIZE_MAX {
          return Aborted;
        }
        if |body| + size.value > MAX_BODY_BYTES {
          return Refused(413);
        }
        var chunk := ReadChunkData(size.value);
        if !chunk.Value? {
          return chunk;
        }
        body := body + chunk.value;
      }
    }

    method ReadPayload(headers: seq<Header>) returns (r: Result<string>)
      requires Valid()
      modifies this
      ensures Valid() && Agrees(r, ReadBody(old(Rest()), headers), Rest())
    {
      hide ReadChunks, ReadExact, IsChunked, Lookup, ParseSize;
      if IsChunked(headers) {
        r := ReadChunked();
        return;
      }
      var value := Lookup(headers, "content-length");
      if value.None? {
        return Value("");
      }
      var length := ParseSize(value.value, 10);
      if length.None? {
        return Refused(400);
      }
      if length.value > MAX_BODY_BYTES {
        return Refused(413);
      }
      r := ReadBytes(length.value);
    }

    /** The request line and the headers. */
    method ReadRequestHead() returns (r: Result<Head>)
      requires Valid()
      modifies this
      ensures Valid() && Agrees(r, ReadHead(old(Rest())), Rest())
    {
      hide ReadFirst, ReadHeaders, SplitThree;
      var line, left := ReadRequestLine();
      if !line.Value? {
        return if line.Gone? then Gone else Refused(line.status);
      }
      var parts := SplitThree(line.value);
      if parts.None? {
        return Refused(400);
      }
      var (verb, target, version) := parts.value;
      if version !in {"HTTP/1.1", "HTTP/1.0"} {
        return Refused(505);
      }
      var headers := ReadHeaderLines(left);
      if !headers.Value? {
        return if headers.Gone? then Gone else Refused(headers.status);
      }
      return Value(Head(verb, target, version, headers.value));
    }

    method ReadRequestAdmitting(admit: Request -> bool) returns (r: Result<Request>)
      requires Valid()
      modifies this
      ensures Valid() && Agrees(r, ReadRequest(old(Rest()), admit), Rest())
    {
      hide ReadHead, ReadBody, Unread;
      var head := ReadRequestHead();
      if !head.Value? {
        return if head.Gone? then Gone else Refused(head.status);
      }
      var request := Unread(head.value);
      if !admit(request) {
        return Value(request.(close := true, drain := true));
      }
      var body := ReadPayload(head.value.headers);
      if !body.Value? {
        return match body case Gone => Gone case Refused(status) => Refused(status) case _ => Aborted;
      }
      return Value(request.(body := body.value));
    }

    /** Read requests until one closes the connection or reading fails. */
    method ServeConnection(admit: Request -> bool) returns (requests: seq<Request>, ending: Ending)
      requires Valid()
      modifies this
      ensures Valid() && (requests, ending) == Serve(old(Rest()), admit)
    {
      hide ReadRequest, Serve;
      requests := [];
      ghost var goal := Serve(Rest(), admit);
      assert [] + goal.0 == goal.0;
      while true
        invariant Valid()
        invariant goal.0 == requests + Serve(Rest(), admit).0 && goal.1 == Serve(Rest(), admit).1
        decreases |Rest()|
      {
        ServeStep(Rest(), admit);
        assert requests + [] == requests;
        var request := ReadRequestAdmitting(admit);
        match request
        case Gone => return requests, Lost;
        case Refused(status) => return requests, Answered(status);
        case Aborted => return requests, Crashed;
        case Value(read) =>
          requests := requests + [read];
          if read.close {
            return requests, AfterClose;
          }
      }
    }
  }

  lemma ServeStep(s: string, admit: Request -> bool)
    ensures var (requests, ending) := Serve(s, admit);
      match ReadRequest(s, admit)
      case Closed => requests == [] && ending == Lost
      case Bad(status) => requests == [] && ending == Answered(status)
      case Crash => requests == [] && ending == Crashed
      case Ok(request, rest) =>
        if request.close then requests == [request] && ending == AfterClose
        else requests == [request] + Serve(rest, admit).0 && ending == Serve(rest, admit).1
  {
    hide ReadRequest;
  }

  /** A connection that carries well-formed, admitted requests, read by the loop above. */
  method ReadBack(ws: seq<Wire>, admit: Request -> bool) returns (requests: seq<Request>)
    requires forall i :: 0 <= i < |ws| ==> Good(ws[i]) && admit(Unread(Meant(ws[i])))
    requires forall i :: 0 <= i < |ws| - 1 ==> !Sent(ws[i]).close
    ensures requests == AllSent(ws)
  {
    ConnectionReadsBack(ws, admit);
    var reader := new Reader(AllBytes(ws));
    var ending;
    requests, ending := reader.ServeConnection(admit);
  }
}
