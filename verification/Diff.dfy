/**
 Unified diffs from stored tool patches (`src/diff.rs`): validation, path quoting and
 printing, and a count-driven reader that takes the printed text apart again.
 */
module Diff {
  import opened Text
  import opened Options

  type ByteString = s: string | forall i :: 0 <= i < |s| ==> s[i] as int < 256 witness ""

  // ---------- the stored document ----------

  /** JSON members may be absent or of another type; both are `None`. */
  datatype RawHunk = RawHunk(
    oldStart: Option<nat>, oldLines: Option<nat>, newStart: Option<nat>, newLines: Option<nat>,
    lines: Option<seq<Option<string>>>)

  datatype RawFile = RawFile(path: Option<ByteString>, hunks: Option<seq<RawHunk>>)

  datatype Hunk = Hunk(oldStart: nat, oldLines: nat, newStart: nat, newLines: nat, lines: seq<string>)

  datatype File = File(added: bool, path: ByteString, hunks: seq<Hunk>)

  predicate GoodLine(line: string) {
    line != "" && line[0] in {' ', '+', '-'} && '\n' !in line
  }

  /** How many lines do not start with `mark`. */
  function CountWithout(lines: seq<string>, mark: char): nat {
    if lines == [] then 0 else (if [mark] <= lines[0] then 0 else 1) + CountWithout(lines[1..], mark)
  }

  lemma {:induction false} CountAppend(lines: seq<string>, line: string, mark: char)
    ensures CountWithout(lines + [line], mark) == CountWithout(lines, mark) + if [mark] <= line then 0 else 1
  {
    if lines == [] {
      assert lines + [line] == [line] && [line][1..] == [];
    } else {
      assert (lines + [line])[1..] == lines[1..] + [line];
      CountAppend(lines[1..], line, mark);
    }
  }

  /** The lines carry their prefixes and the counts describe them. */
  predicate GoodHunk(h: Hunk) {
    && (forall i :: 0 <= i < |h.lines| ==> GoodLine(h.lines[i]))
    && CountWithout(h.lines, '+') == h.oldLines
    && CountWithout(h.lines, '-') == h.newLines
  }

  /** The hunk has the members a stored one must have, with these values. */
  predicate Describes(raw: RawHunk, h: Hunk) {
    && raw.oldStart == Some(h.oldStart) && raw.oldLines == Some(h.oldLines)
    && raw.newStart == Some(h.newStart) && raw.newLines == Some(h.newLines)
    && raw.lines.Some? && |raw.lines.value| == |h.lines|
    && (forall i :: 0 <= i < |h.lines| ==> raw.lines.value[i] == Some(h.lines[i]))
  }

  /** Accepts exactly the raw hunks that describe a good one. */
  method ReadHunk(raw: RawHunk) returns (r: Option<Hunk>)
    ensures r.Some? ==> Describes(raw, r.value) && GoodHunk(r.value)
    ensures r.None? ==> forall h :: Describes(raw, h) ==> !GoodHunk(h)
  {
    if raw.lines.None? {
      return None;
    }
    var lines: seq<string> := [];
    var before, after := 0, 0;
    for i := 0 to |raw.lines.value|
      invariant |lines| == i
      invariant forall j :: 0 <= j < i ==> raw.lines.value[j] == Some(lines[j]) && GoodLine(lines[j])
      invariant before == CountWithout(lines, '+') && after == CountWithout(lines, '-')
    {
      var line := raw.lines.value[i];
      if line.None? || !GoodLine(line.value) {
        assert forall h :: Describes(raw, h) ==> Some(h.lines[i]) == line;
        return None;
      }
      CountAppend(lines, line.value, '+');
      CountAppend(lines, line.value, '-');
      lines := lines + [line.value];
      if line.value[0] != '+' {
        before := before + 1;
      }
      if line.value[0] != '-' {
        after := after + 1;
      }
    }
    assert forall h :: Describes(raw, h) ==> h.lines == lines;
    if raw.oldStart.None? || raw.oldLines.None? || raw.newStart.None? || raw.newLines.None? {
      return None;
    }
    if before != raw.oldLines.value || after != raw.newLines.value {
      return None;
    }
    return Some(Hunk(raw.oldStart.value, raw.oldLines.value, raw.newStart.value, raw.newLines.value, lines));
  }

  // ---------- path quoting ----------

  predicate Unusual(c: char) {
    c < ' ' || c as int == 0x7f || c as int >= 0x80 || c == '"' || c == '\\'
  }

  function Octal(d: nat): char
    requires d < 8
  {
    '0' + d as char
  }

  function QuoteChar(c: char): string
    requires c as int < 256
  {
    if c == '"' then "\\\""
    else if c == '\\' then "\\\\"
    else if c == '\t' then "\\t"
    else if c == '\n' then "\\n"
    else if c == '\r' then "\\r"
    else if ' ' <= c && c as int <= 0x7e then [c]
    else ['\\', Octal(c as int / 64), Octal(c as int / 8 % 8), Octal(c as int % 8)]
  }

  function QuoteAll(path: ByteString): string {
    if path == "" then "" else QuoteAll(path[..|path| - 1]) + QuoteChar(path[|path| - 1])
  }

  predicate Plain(path: string) {
    forall i :: 0 <= i < |path| ==> !Unusual(path[i])
  }

  function QuotedPath(path: ByteString): string {
    if Plain(path) then path else "\"" + QuoteAll(path) + "\""
  }

  method GitPath(path: ByteString) returns (shown: string)
    ensures shown == QuotedPath(path)
  {
    hide Unusual, QuoteChar;
    var unusual := false;
    for i := 0 to |path|
      invariant unusual == exists j :: 0 <= j < i && Unusual(path[j])
    {
      unusual := unusual || Unusual(path[i]);
    }
    if !unusual {
      return path;
    }
    shown := "\"";
    for i := 0 to |path|
      invariant shown == "\"" + QuoteAll(path[..i])
    {
      assert path[..i + 1][..i] == path[..i];
      shown := shown + QuoteChar(path[i]);
    }
    assert path[..|path|] == path;
    shown := shown + "\"";
  }

  /** Git's reading of a quoted path, after the opening quote. */
  function UnquoteRest(s: string): Option<string> {
    if s == "" then None
    else if s[0] == '"' then (if |s| == 1 then Some("") else None)
    else if s[0] != '\\' then Prepend(s[0], UnquoteRest(s[1..]))
    else if |s| >= 4 && IsOctal(s[1]) && IsOctal(s[2]) && IsOctal(s[3]) && OctalValue(s[1..4]) < 256 then
      Prepend(OctalValue(s[1..4]) as char, UnquoteRest(s[4..]))
    else if |s| >= 2 && Escape(s[1]).Some? then Prepend(Escape(s[1]).value, UnquoteRest(s[2..]))
    else None
  }

  function Prepend(c: char, rest: Option<string>): Option<string> {
    if rest.None? then None else Some([c] + rest.value)
  }

  predicate IsOctal(c: char) { '0' <= c <= '7' }

  function OctalValue(s: string): nat
    requires |s| == 3 && IsOctal(s[0]) && IsOctal(s[1]) && IsOctal(s[2])
  {
    (s[0] - '0') as int * 64 + (s[1] - '0') as int * 8 + (s[2] - '0') as int
  }

  function Escape(c: char): Option<char> {
    if c == '"' || c == '\\' then Some(c)
    else if c == 't' then Some('\t')
    else if c == 'n' then Some('\n')
    else if c == 'r' then Some('\r')
    else None
  }

  function Unquote(s: string): Option<string> {
    if s == "" || s[0] != '"' then Some(s) else UnquoteRest(s[1..])
  }

  lemma UnquoteChar(c: char, rest: string)
    requires c as int < 256
    ensures UnquoteRest(QuoteChar(c) + rest) == Prepend(c, UnquoteRest(rest))
  {
    hide UnquoteRest;
    if |QuoteChar(c)| == 4 {
      UnquoteOctal(c, rest);
    } else if |QuoteChar(c)| == 2 {
      UnquoteEscape(QuoteChar(c)[1], rest);
      assert QuoteChar(c) == ['\\', QuoteChar(c)[1]];
    } else {
      UnquotePlain(c, rest);
    }
  }

  lemma UnquotePlain(c: char, rest: string)
    requires c != '"' && c != '\\'
    ensures UnquoteRest([c] + rest) == Prepend(c, UnquoteRest(rest))
  {
    var s := [c] + rest;
    assert s[1..] == rest;
  }

  lemma UnquoteEscape(e: char, rest: string)
    requires Escape(e).Some? && !IsOctal(e)
    ensures UnquoteRest(['\\', e] + rest) == Prepend(Escape(e).value, UnquoteRest(rest))
  {
    var s := ['\\', e] + rest;
    assert s[2..] == rest && s[1] == e;
  }

  lemma UnquoteOctal(c: char, rest: string)
    requires c as int < 256
    ensures var n := c as int;
      UnquoteRest(['\\', Octal(n / 64), Octal(n / 8 % 8), Octal(n % 8)] + rest) == Prepend(c, UnquoteRest(rest))
  {
    var n := c as int;
    var digits := [Octal(n / 64), Octal(n / 8 % 8), Octal(n % 8)];
    var s := ['\\', Octal(n / 64), Octal(n / 8 % 8), Octal(n % 8)] + rest;
    assert s[1..4] == digits && s[4..] == rest;
    assert OctalValue(digits) == n;
  }

  lemma {:induction false} UnquoteQuoteAll(path: ByteString, rest: string)
    requires UnquoteRest(rest).Some?
    ensures UnquoteRest(QuoteAll(path) + rest) == Some(path + UnquoteRest(rest).value)
  {
    hide UnquoteRest, QuoteChar;
    if path == "" {
      assert QuoteAll(path) + rest == rest && path + UnquoteRest(rest).value == UnquoteRest(rest).value;
    } else {
      var most, last := path[..|path| - 1], path[|path| - 1];
      UnquoteChar(last, rest);
      UnquoteQuoteAll(most, QuoteChar(last) + rest);
      assert QuoteAll(path) + rest == QuoteAll(most) + (QuoteChar(last) + rest);
      assert path == most + [last];
      var v := UnquoteRest(rest).value;
      assert most + ([last] + v) == path + v;
    }
  }

  /** Unquoting undoes quoting, for every byte string. */
  lemma UnquoteQuoted(path: ByteString)
    ensures Unquote(QuotedPath(path)) == Some(path)
  {
    if !Plain(path) {
      var s := QuotedPath(path);
      assert UnquoteRest("\"") == Some("");
      UnquoteQuoteAll(path, "\"");
      assert s[1..] == QuoteAll(path) + "\"";
      assert path + "" == path;
    }
  }

  lemma QuotingInjective(a: ByteString, b: ByteString)
    requires QuotedPath(a) == QuotedPath(b)
    ensures a == b
  {
    UnquoteQuoted(a);
    UnquoteQuoted(b);
  }

  lemma {:induction false} QuotedOnOneLine(path: ByteString)
    ensures '\n' !in QuotedPath(path)
  {
    hide QuoteAll;
    QuotedAllOnOneLine(path);
  }

  lemma {:induction false} QuotedAllOnOneLine(path: ByteString)
    ensures '\n' !in QuoteAll(path)
  {
    hide QuoteChar;
    if path != "" {
      QuotedAllOnOneLine(path[..|path| - 1]);
      QuotedCharOnOneLine(path[|path| - 1]);
    }
  }

  lemma QuotedCharOnOneLine(c: char)
    requires c as int < 256
    ensures '\n' !in QuoteChar(c)
  {
  }

  // ---------- the printed patch ----------

  /** Git names the line before an empty range. */
  function Range(start: nat, lines: nat): string {
    Decimal(if lines == 0 && start > 0 then start - 1 else start) + "," + Decimal(lines)
  }

  function Header(h: Hunk): string {
    "@@ -" + Range(h.oldStart, h.oldLines) + " +" + Range(h.newStart, h.newLines) + " @@"
  }

  function HunkLines(hunks: seq<Hunk>): seq<string> {
    if hunks == [] then [] else [Header(hunks[0])] + hunks[0].lines + HunkLines(hunks[1..])
  }

  lemma {:induction false} HunkLinesAppend(hunks: seq<Hunk>, h: Hunk)
    ensures HunkLines(hunks + [h]) == HunkLines(hunks) + ([Header(h)] + h.lines)
  {
    hide Header;
    if hunks == [] {
      assert hunks + [h] == [h] && [h][1..] == [];
    } else {
      assert (hunks + [h])[1..] == hunks[1..] + [h];
      HunkLinesAppend(hunks[1..], h);
    }
  }

  function FileHeader(f: File): seq<string> {
    var shown := QuotedPath(f.path);
    ["diff --git " + shown + " " + shown, "--- " + (if f.added then "/dev/null" else shown), "+++ " + shown]
  }

  function PatchLines(files: seq<File>): seq<string> {
    if files == [] then [] else FileHeader(files[0]) + HunkLines(files[0].hunks) + PatchLines(files[1..])
  }

  lemma {:induction false} PatchLinesAppend(files: seq<File>, f: File)
    ensures PatchLines(files + [f]) == PatchLines(files) + (FileHeader(f) + HunkLines(f.hunks))
  {
    hide FileHeader, HunkLines;
    if files == [] {
      assert files + [f] == [f] && [f][1..] == [];
    } else {
      assert (files + [f])[1..] == files[1..] + [f];
      PatchLinesAppend(files[1..], f);
    }
  }

  /** Lines, each ended by a newline. */
  function Unlines(lines: seq<string>): string {
    if lines == [] then "" else Unlines(lines[..|lines| - 1]) + lines[|lines| - 1] + "\n"
  }

  lemma {:induction false} UnlinesAppend(a: seq<string>, b: seq<string>)
    ensures Unlines(a + b) == Unlines(a) + Unlines(b)
  {
    if b == [] {
      assert a + b == a && Unlines(a) + "" == Unlines(a);
    } else {
      assert (a + b)[..|a + b| - 1] == a + b[..|b| - 1];
      UnlinesAppend(a, b[..|b| - 1]);
    }
  }

  lemma UnlinesOne(line: string)
    ensures Unlines([line]) == line + "\n"
  {
    assert [line][..0] == [];
    assert "" + line == line;
  }

  predicate IsAbsolute(path: string) { path != "" && path[0] == '/' }

  /** What a stored file turns into: nothing when it has no hunks. */
  predicate Reads(raw: RawFile, creates: bool, f: File) {
    && raw.path == Some(f.path) && IsAbsolute(f.path) && '\n' !in f.path
    && raw.hunks.Some? && |raw.hunks.value| == |f.hunks|
    && (forall i :: 0 <= i < |f.hunks| ==> Describes(raw.hunks.value[i], f.hunks[i]) && GoodHunk(f.hunks[i]))
    && (f.added <==> creates && forall i :: 0 <= i < |f.hunks| ==> f.hunks[i].oldLines == 0)
  }

  predicate GoodFile(f: File) {
    && IsAbsolute(f.path) && '\n' !in f.path && f.hunks != []
    && (forall i :: 0 <= i < |f.hunks| ==> GoodHunk(f.hunks[i]))
  }

  method ReadHunks(raw: seq<RawHunk>) returns (r: Option<seq<Hunk>>)
    ensures r.Some? ==> |r.value| == |raw|
    ensures r.Some? ==> forall i :: 0 <= i < |raw| ==> Describes(raw[i], r.value[i]) && GoodHunk(r.value[i])
    ensures r.None? ==> exists i :: 0 <= i < |raw| && forall h :: Describes(raw[i], h) ==> !GoodHunk(h)
  {
    var hunks := [];
    for i := 0 to |raw|
      invariant |hunks| == i
      invariant forall j :: 0 <= j < i ==> Describes(raw[j], hunks[j]) && GoodHunk(hunks[j])
    {
      var h := ReadHunk(raw[i]);
      if h.None? {
        return None;
      }
      hunks := hunks + [h.value];
    }
    return Some(hunks);
  }

  /** The files, in order, that a document's files read as, leaving out those without hunks. */
  ghost predicate ReadsAll(raw: seq<RawFile>, creates: bool, files: seq<File>) {
    if raw == [] then files == []
    else
      var last := raw[|raw| - 1];
      exists f :: Reads(last, creates, f) &&
        if f.hunks == [] then ReadsAll(raw[..|raw| - 1], creates, files)
        else files != [] && files[|files| - 1] == f && ReadsAll(raw[..|raw| - 1], creates, files[..|files| - 1])
  }

  lemma {:induction false} ReadsAllUnique(raw: seq<RawFile>, creates: bool, a: seq<File>, b: seq<File>)
    requires ReadsAll(raw, creates, a) && ReadsAll(raw, creates, b)
    ensures a == b
  {
    if raw != [] {
      var last, rest := raw[|raw| - 1], raw[..|raw| - 1];
      forall f, g | Reads(last, creates, f) && Reads(last, creates, g) ensures f == g {
        ReadsUnique(last, creates, f, g);
      }
      var f :| Reads(last, creates, f);
      if f.hunks == [] {
        ReadsAllUnique(rest, creates, a, b);
      } else {
        ReadsAllUnique(rest, creates, a[..|a| - 1], b[..|b| - 1]);
        assert a == a[..|a| - 1] + [f] && b == b[..|b| - 1] + [f];
      }
    }
  }

  lemma ReadsUnique(raw: RawFile, creates: bool, f: File, g: File)
    requires Reads(raw, creates, f) && Reads(raw, creates, g)
    ensures f == g
  {
    forall i | 0 <= i < |f.hunks| ensures f.hunks[i] == g.hunks[i] {
      assert Describes(raw.hunks.value[i], f.hunks[i]) && Describes(raw.hunks.value[i], g.hunks[i]);
      assert f.hunks[i].lines == g.hunks[i].lines;
    }
    assert f.hunks == g.hunks;
  }

  lemma {:induction false} ReadsEach(raw: seq<RawFile>, creates: bool, files: seq<File>, i: nat)
    requires ReadsAll(raw, creates, files) && i < |raw|
    ensures exists f :: Reads(raw[i], creates, f)
  {
    if i < |raw| - 1 {
      var rest := raw[..|raw| - 1];
      var f :| Reads(raw[|raw| - 1], creates, f) &&
        if f.hunks == [] then ReadsAll(rest, creates, files)
        else files != [] && files[|files| - 1] == f && ReadsAll(rest, creates, files[..|files| - 1]);
      ReadsEach(rest, creates, if f.hunks == [] then files else files[..|files| - 1], i);
    }
  }

  lemma BadHunk(file: RawFile, creates: bool, k: nat)
    requires file.hunks.Some? && k < |file.hunks.value|
    requires forall h :: Describes(file.hunks.value[k], h) ==> !GoodHunk(h)
    ensures forall f :: !Reads(file, creates, f)
  {
    hide Describes, GoodHunk;
    forall f ensures !Reads(file, creates, f) {
      assert |f.hunks| == |file.hunks.value| ==> !(Describes(file.hunks.value[k], f.hunks[k]) && GoodHunk(f.hunks[k]));
    }
  }

  lemma NoneReads(raw: seq<RawFile>, creates: bool, i: nat)
    requires i < |raw| && forall f :: !Reads(raw[i], creates, f)
    ensures forall files :: !ReadsAll(raw, creates, files)
  {
    forall files ensures !ReadsAll(raw, creates, files) {
      if ReadsAll(raw, creates, files) {
        ReadsEach(raw, creates, files, i);
      }
    }
  }

  lemma ReadsAllAppend(raw: seq<RawFile>, creates: bool, files: seq<File>, file: RawFile, f: File)
    requires ReadsAll(raw, creates, files) && Reads(file, creates, f)
    ensures ReadsAll(raw + [file], creates, if f.hunks == [] then files else files + [f])
  {
    assert (raw + [file])[..|raw|] == raw;
    assert (files + [f])[..|files|] == files;
  }

  lemma PatchAppend(files: seq<File>, f: File)
    ensures Unlines(PatchLines(files + [f])) == Unlines(PatchLines(files)) + Unlines(FileHeader(f) + HunkLines(f.hunks))
  {
    PatchLinesAppend(files, f);
    UnlinesAppend(PatchLines(files), FileHeader(f) + HunkLines(f.hunks));
  }

  /** The patch text and the changes of a document, or `None` when it is no non-empty patch. */
  method AcpV2Diff(creates: bool, document: Option<seq<RawFile>>)
    returns (changes: Option<seq<(bool, ByteString)>>, patch: string, ghost files: seq<File>)
    ensures changes.Some? ==>
      && document.Some? && ReadsAll(document.value, creates, files) && files != []
      && patch == Unlines(PatchLines(files))
      && |changes.value| == |files|
      && (forall i :: 0 <= i < |files| ==> changes.value[i] == (files[i].added, files[i].path) && GoodFile(files[i]))
      && ReadPatch(patch) == Some(KeptFiles(files))
    ensures changes.None? ==>
      forall fs :: document.Some? && ReadsAll(document.value, creates, fs) ==> fs == []
  {
    hide ReadsAll, Describes, GoodHunk, PatchLines, Unlines, FileHeader, HunkLines;
    files := [];
    patch := "";
    EmptyPatch(creates);
    if document.None? {
      return None, "", [];
    }
    var raw := document.value;
    var list: seq<(bool, ByteString)> := [];
    for i := 0 to |raw|
      invariant ReadsAll(raw[..i], creates, files)
      invariant patch == Unlines(PatchLines(files))
      invariant |list| == |files|
      invariant forall j :: 0 <= j < |files| ==> list[j] == (files[j].added, files[j].path) && GoodFile(files[j])
    {
      assert raw[..i + 1] == raw[..i] + [raw[i]];
      var file := raw[i];
      if file.path.None? || !IsAbsolute(file.path.value) || '\n' in file.path.value || file.hunks.None? {
        NoneReads(raw, creates, i);
        return None, "", [];
      }
      var read := ReadHunks(file.hunks.value);
      if read.None? {
        ghost var k :| 0 <= k < |file.hunks.value| && forall h :: Describes(file.hunks.value[k], h) ==> !GoodHunk(h);
        BadHunk(file, creates, k);
        NoneReads(raw, creates, i);
        return None, "", [];
      }
      var hunks := read.value;
      var added := creates && forall j :: 0 <= j < |hunks| ==> hunks[j].oldLines == 0;
      ghost var f := File(added, file.path.value, hunks);
      ReadsAllAppend(raw[..i], creates, files, file, f);
      if hunks != [] {
        list := list + [(added, file.path.value)];
        var text := PrintFile(added, file.path.value, hunks);
        PatchAppend(files, f);
        patch := patch + text;
        files := files + [f];
      }
    }
    assert raw[..|raw|] == raw;
    if list == [] {
      forall fs | ReadsAll(raw, creates, fs) ensures fs == [] {
        ReadsAllUnique(raw, creates, fs, files);
      }
      return None, "", [];
    }
    ReadPrinted(files);
    return Some(list), patch, files;
  }

  lemma EmptyPatch(creates: bool)
    ensures ReadsAll([], creates, []) && Unlines(PatchLines([])) == ""
  {
  }

  method PrintFile(added: bool, path: ByteString, hunks: seq<Hunk>) returns (text: string)
    ensures text == Unlines(FileHeader(File(added, path, hunks)) + HunkLines(hunks))
  {
    hide Unlines, FileHeader, Header;
    text := PrintFileHeader(added, path, hunks);
    ghost var header := FileHeader(File(added, path, hunks));
    assert header + HunkLines(hunks[..0]) == header;
    for i := 0 to |hunks|
      invariant text == Unlines(header + HunkLines(hunks[..i]))
    {
      var h := hunks[i];
      var printed := PrintHunk(h);
      UnlinesAppend(header + HunkLines(hunks[..i]), [Header(h)] + h.lines);
      text := text + printed;
      assert hunks[..i + 1] == hunks[..i] + [h];
      HunkLinesAppend(hunks[..i], h);
      assert header + HunkLines(hunks[..i]) + ([Header(h)] + h.lines) == header + HunkLines(hunks[..i + 1]);
    }
    assert hunks[..|hunks|] == hunks;
  }

  method PrintFileHeader(added: bool, path: ByteString, ghost hunks: seq<Hunk>) returns (text: string)
    ensures text == Unlines(FileHeader(File(added, path, hunks)))
  {
    var shown := GitPath(path);
    text := "diff --git " + shown + " " + shown + "\n";
    if added {
      text := text + "--- /dev/null\n+++ " + shown + "\n";
    } else {
      text := text + "--- " + shown + "\n+++ " + shown + "\n";
    }
    hide Unlines, QuotedPath;
    ghost var lines := FileHeader(File(added, path, hunks));
    UnlinesThree(lines[0], lines[1], lines[2]);
  }

  lemma UnlinesThree(a: string, b: string, c: string)
    ensures Unlines([a, b, c]) == a + "\n" + b + "\n" + c + "\n"
  {
    assert [a, b, c] == [a] + [b] + [c];
    UnlinesAppend([a] + [b], [c]);
    UnlinesAppend([a], [b]);
    UnlinesOne(a);
    UnlinesOne(b);
    UnlinesOne(c);
  }

  method PrintHunk(h: Hunk) returns (text: string)
    ensures text == Unlines([Header(h)] + h.lines)
  {
    hide Range;
    text := "@@ -" + Range(h.oldStart, h.oldLines) + " +" + Range(h.newStart, h.newLines) + " @@\n";
    UnlinesOne(Header(h));
    assert text == Header(h) + "\n";
    assert [Header(h)] + h.lines[..0] == [Header(h)];
    hide Header;
    for j := 0 to |h.lines|
      invariant text == Unlines([Header(h)] + h.lines[..j])
    {
      UnlinesAppend([Header(h)] + h.lines[..j], [h.lines[j]]);
      UnlinesOne(h.lines[j]);
      assert [Header(h)] + h.lines[..j + 1] == [Header(h)] + h.lines[..j] + [h.lines[j]];
      text := text + h.lines[j] + "\n";
    }
    assert h.lines[..|h.lines|] == h.lines;
  }

  // ---------- reading a patch back ----------

  /** The lines of a text in which every line is ended. */
  function Lines(s: string): Option<seq<string>> {
    if s == "" then Some([])
    else
      var n := IndexOf(s, '\n');
      if n == |s| then None
      else
        var rest := Lines(s[n + 1..]);
        if rest.None? then None else Some([s[..n]] + rest.value)
  }

  lemma {:induction false} LinesUnlines(lines: seq<string>)
    requires forall i :: 0 <= i < |lines| ==> '\n' !in lines[i]
    ensures Lines(Unlines(lines)) == Some(lines)
    decreases |lines|
  {
    if lines != [] {
      var first, rest := lines[0], lines[1..];
      assert lines == [first] + rest;
      UnlinesAppend([first], rest);
      UnlinesOne(first);
      LinesUnlines(rest);
      var s := Unlines(lines);
      assert s == first + "\n" + Unlines(rest);
      IndexOfFirst(first, '\n', Unlines(rest));
      assert s[..|first|] == first && s[|first| + 1..] == Unlines(rest);
    }
  }

  /** The number at the start of a text and what follows it. */
  function Number(s: string): (r: Option<(nat, string)>)
    ensures r.Some? ==> |r.value.1| < |s|
  {
    var n := Digits(s);
    if n == 0 then None else Some((ValueOf(s[..n]), s[n..]))
  }

  function Digits(s: string): (n: nat)
    ensures n <= |s| && AllDigits(s[..n]) && (n < |s| ==> !IsDigit(s[n]))
  {
    if s == "" || !IsDigit(s[0]) then 0
    else
      assert s[..1 + Digits(s[1..])] == [s[0]] + s[1..][..Digits(s[1..])];
      1 + Digits(s[1..])
  }

  lemma {:induction false} DigitsEnd(d: string, rest: string)
    requires AllDigits(d) && (rest == "" || !IsDigit(rest[0]))
    ensures Digits(d + rest) == |d|
  {
    if d == "" {
      assert d + rest == rest;
    } else {
      assert (d + rest)[1..] == d[1..] + rest;
      DigitsEnd(d[1..], rest);
    }
  }

  lemma NumberDecimal(n: nat, rest: string)
    requires rest == "" || !IsDigit(rest[0])
    ensures Number(Decimal(n) + rest) == Some((n, rest))
  {
    var d, s := Decimal(n), Decimal(n) + rest;
    DigitsEnd(d, rest);
    assert s[..|d|] == d && s[|d|..] == rest;
    ValueOfDecimal(n);
  }

  function Skip(prefix: string, s: string): (r: Option<string>)
    ensures r.Some? ==> s == prefix + r.value
  {
    if prefix <= s then Some(s[|prefix|..]) else None
  }

  /** A printed range: its start and count, naming the start of an empty range again. */
  function ReadRange(s: string): (r: Option<(nat, nat, string)>) {
    var start := Number(s);
    if start.None? then None
    else
      var comma := Skip(",", start.value.1);
      if comma.None? then None
      else
        var lines := Number(comma.value);
        if lines.None? then None
        else Some((if lines.value.0 == 0 then start.value.0 + 1 else start.value.0, lines.value.0, lines.value.1))
  }

  /** A hunk header: the two ranges, with no lines yet. */
  function ReadHeader(line: string): (r: Option<Hunk>) {
    var open := Skip("@@ -", line);
    if open.None? then None
    else
      var before := ReadRange(open.value);
      if before.None? then None
      else
        var plus := Skip(" +", before.value.2);
        if plus.None? then None
        else
          var after := ReadRange(plus.value);
          if after.None? || after.value.2 != " @@" then None
          else Some(Hunk(before.value.0, before.value.1, after.value.0, after.value.1, []))
  }

  /** As many lines as the counts still ask for, and what follows them. */
  function TakeLines(lines: seq<string>, before: nat, after: nat): (r: Option<(seq<string>, seq<string>)>)
    ensures r.Some? ==> |r.value.1| <= |lines|
  {
    if before == 0 && after == 0 then Some(([], lines))
    else if lines == [] || lines[0] == "" then None
    else
      var b := if lines[0][0] == '+' then 0 else 1;
      var a := if lines[0][0] == '-' then 0 else 1;
      if before < b || after < a then None
      else
        var rest := TakeLines(lines[1..], before - b, after - a);
        if rest.None? then None else Some(([lines[0]] + rest.value.0, rest.value.1))
  }

  function ReadHunkLines(lines: seq<string>): (r: Option<(seq<Hunk>, seq<string>)>)
    ensures r.Some? ==> |r.value.1| <= |lines|
    decreases |lines|
  {
    if lines == [] || !("@@ -" <= lines[0]) then Some(([], lines))
    else
      var h := ReadHeader(lines[0]);
      if h.None? then None
      else
        var body := TakeLines(lines[1..], h.value.oldLines, h.value.newLines);
        if body.None? then None
        else
          var rest := ReadHunkLines(body.value.1);
          if rest.None? then None
          else Some(([h.value.(lines := body.value.0)] + rest.value.0, rest.value.1))
  }

  datatype Printed = Printed(added: bool, path: string, hunks: seq<Hunk>)

  function ReadFiles(lines: seq<string>): (r: Option<seq<Printed>>)
    decreases |lines|
  {
    if lines == [] then Some([])
    else if |lines| < 3 || !("diff --git " <= lines[0]) || !("--- " <= lines[1]) || !("+++ " <= lines[2]) then None
    else
      var path := Unquote(lines[2][4..]);
      var hunks := ReadHunkLines(lines[3..]);
      if path.None? || hunks.None? then None
      else
        var rest := ReadFiles(hunks.value.1);
        if rest.None? then None
        else Some([Printed(lines[1][4..] == "/dev/null", path.value, hunks.value.0)] + rest.value)
  }

  function ReadPatch(s: string): Option<seq<Printed>> {
    var lines := Lines(s);
    if lines.None? then None else ReadFiles(lines.value)
  }

  // ---------- what printing loses ----------

  /** The start a printed range stands for: only an empty range at 0 is moved. */
  function KeptStart(start: nat, lines: nat): (r: nat)
    ensures r == start <==> !(start == 0 && lines == 0)
  {
    if lines == 0 && start == 0 then 1 else start
  }

  function KeptHunk(h: Hunk): Hunk {
    h.(oldStart := KeptStart(h.oldStart, h.oldLines), newStart := KeptStart(h.newStart, h.newLines))
  }

  /** An empty range at line 0 prints like one at line 1, and a modified `/dev/null` like an
      added one; everything else is kept. */
  function Kept(f: File): Printed {
    Printed(f.added || f.path == "/dev/null", f.path, KeptHunks(f.hunks))
  }

  function KeptHunks(hunks: seq<Hunk>): seq<Hunk> {
    seq(|hunks|, i requires 0 <= i < |hunks| => KeptHunk(hunks[i]))
  }

  function KeptFiles(files: seq<File>): seq<Printed> {
    seq(|files|, i requires 0 <= i < |files| => Kept(files[i]))
  }

  lemma ReadPrintedRange(start: nat, lines: nat, rest: string)
    requires rest == "" || !IsDigit(rest[0])
    ensures ReadRange(Range(start, lines) + rest) == Some((KeptStart(start, lines), lines, rest))
  {
    var shown := if lines == 0 && start > 0 then start - 1 else start;
    var s := Range(start, lines) + rest;
    hide Decimal, Number;
    assert s == Decimal(shown) + ("," + (Decimal(lines) + rest));
    NumberDecimal(shown, "," + (Decimal(lines) + rest));
    assert ("," + (Decimal(lines) + rest))[1..] == Decimal(lines) + rest;
    NumberDecimal(lines, rest);
  }

  lemma ReadPrintedHeader(h: Hunk)
    ensures ReadHeader(Header(h)) == Some(KeptHunk(h).(lines := []))
  {
    hide ReadRange, Range, KeptStart;
    var line := Header(h);
    var after := Range(h.newStart, h.newLines) + " @@";
    var before := Range(h.oldStart, h.oldLines) + (" +" + after);
    assert line == "@@ -" + before;
    assert line[4..] == before;
    ReadPrintedRange(h.oldStart, h.oldLines, " +" + after);
    assert (" +" + after)[2..] == after;
    ReadPrintedRange(h.newStart, h.newLines, " @@");
  }

  /** The counts end a hunk exactly where its lines end, whatever the text after it. */
  lemma {:induction false} TakeCounted(lines: seq<string>, rest: seq<string>)
    requires forall i :: 0 <= i < |lines| ==> GoodLine(lines[i])
    ensures TakeLines(lines + rest, CountWithout(lines, '+'), CountWithout(lines, '-')) == Some((lines, rest))
  {
    if lines == [] {
      assert lines + rest == rest;
    } else {
      TakeCounted(lines[1..], rest);
      assert (lines + rest)[1..] == lines[1..] + rest;
      assert [lines[0]] + lines[1..] == lines;
    }
  }

  predicate EndsHunks(rest: seq<string>) {
    rest == [] || "diff --git " <= rest[0]
  }

  lemma {:induction false} ReadPrintedHunks(hunks: seq<Hunk>, rest: seq<string>)
    requires EndsHunks(rest) && forall i :: 0 <= i < |hunks| ==> GoodHunk(hunks[i])
    ensures ReadHunkLines(HunkLines(hunks) + rest) == Some((KeptHunks(hunks), rest))
  {
    hide ReadHunkLines, Header, GoodHunk, EndsHunks, KeptHunk;
    if hunks == [] {
      assert HunkLines(hunks) + rest == rest;
      NotAHunk(rest);
    } else {
      var h := hunks[0];
      var tail := HunkLines(hunks[1..]) + rest;
      assert HunkLines(hunks) + rest == [Header(h)] + (h.lines + tail);
      ReadPrintedHunks(hunks[1..], rest);
      ReadFirstHunk(h, tail);
      assert KeptHunks(hunks) == [KeptHunk(h)] + KeptHunks(hunks[1..]);
    }
  }

  lemma NotAHunk(rest: seq<string>)
    requires EndsHunks(rest)
    ensures ReadHunkLines(rest) == Some(([], rest))
  {
    if rest != [] {
      assert rest[0][0] == "diff --git "[0] == 'd';
    }
  }

  lemma ReadFirstHunk(h: Hunk, tail: seq<string>)
    requires GoodHunk(h) && ReadHunkLines(tail).Some?
    ensures var more := ReadHunkLines(tail).value;
      ReadHunkLines([Header(h)] + (h.lines + tail)) == Some(([KeptHunk(h)] + more.0, more.1))
  {
    hide ReadHeader, TakeLines, Header, GoodHunk, KeptHunk;
    var lines := [Header(h)] + (h.lines + tail);
    assert lines[0] == Header(h) && lines[1..] == h.lines + tail;
    ReadPrintedHunk(h, tail);
  }

  lemma ReadPrintedHunk(h: Hunk, tail: seq<string>)
    requires GoodHunk(h)
    ensures "@@ -" <= Header(h)
    ensures var r := ReadHeader(Header(h));
      && r.Some? && r.value.(lines := h.lines) == KeptHunk(h)
      && TakeLines(h.lines + tail, r.value.oldLines, r.value.newLines) == Some((h.lines, tail))
  {
    HeaderStarts(h);
    ReadPrintedHeader(h);
    TakeCounted(h.lines, tail);
  }

  lemma HeaderStarts(h: Hunk)
    ensures "@@ -" <= Header(h)
  {
  }

  lemma ReadPrintedHeaderLines(f: File)
    ensures var h := FileHeader(f);
      && "diff --git " <= h[0] && "--- " <= h[1] && "+++ " <= h[2]
      && Unquote(h[2][4..]) == Some(f.path)
      && (h[1][4..] == "/dev/null" <==> f.added || f.path == "/dev/null")
  {
    hide QuotedPath, Unquote;
    var h := FileHeader(f);
    UnquoteQuoted(f.path);
    assert h[2][4..] == QuotedPath(f.path);
    assert h[1][4..] == if f.added then "/dev/null" else QuotedPath(f.path);
    DevNullIsPlain(f.path);
  }

  lemma DevNullIsPlain(path: ByteString)
    ensures QuotedPath(path) == "/dev/null" <==> path == "/dev/null"
  {
    var name := "/dev/null";
    assert Plain(name);
    hide Plain, QuoteAll;
    assert QuotedPath(name) == name;
    if QuotedPath(path) == name {
      QuotingInjective(path, name);
    }
  }

  lemma {:induction false} ReadPrintedFiles(files: seq<File>)
    requires forall i :: 0 <= i < |files| ==> GoodFile(files[i])
    ensures ReadFiles(PatchLines(files)) == Some(KeptFiles(files))
  {
    hide FileHeader, HunkLines, ReadFiles, Kept, GoodFile;
    if files == [] {
      NoFiles();
    } else {
      var f, rest := files[0], files[1..];
      assert PatchLines(files) == FileHeader(f) + (HunkLines(f.hunks) + PatchLines(rest));
      ReadPrintedFiles(rest);
      TailEndsHunks(rest);
      ReadFirstFile(f, PatchLines(rest));
      assert KeptFiles(files) == [Kept(f)] + KeptFiles(rest);
    }
  }

  lemma NoFiles()
    ensures ReadFiles([]) == Some([])
  {
  }

  lemma ReadFirstFile(f: File, tail: seq<string>)
    requires GoodFile(f) && EndsHunks(tail) && ReadFiles(tail).Some?
    ensures ReadFiles(FileHeader(f) + (HunkLines(f.hunks) + tail)) == Some([Kept(f)] + ReadFiles(tail).value)
  {
    hide FileHeader, HunkLines, ReadHunkLines, Unquote, GoodHunk, EndsHunks, KeptHunks;
    HeaderHasThree(f);
    var body := HunkLines(f.hunks) + tail;
    var lines := FileHeader(f) + body;
    assert lines[3..] == body;
    assert lines[0] == FileHeader(f)[0] && lines[1] == FileHeader(f)[1] && lines[2] == FileHeader(f)[2];
    ReadPrintedHeaderLines(f);
    ReadPrintedHunks(f.hunks, tail);
  }

  lemma HeaderHasThree(f: File)
    ensures |FileHeader(f)| == 3
  {
  }

  lemma TailEndsHunks(files: seq<File>)
    ensures EndsHunks(PatchLines(files))
  {
    if files != [] {
      ReadPrintedHeaderLines(files[0]);
      HeaderHasThree(files[0]);
      assert PatchLines(files)[0] == FileHeader(files[0])[0];
    }
  }

  lemma {:induction false} PatchOnLines(files: seq<File>)
    requires forall i :: 0 <= i < |files| ==> GoodFile(files[i])
    ensures forall j :: 0 <= j < |PatchLines(files)| ==> '\n' !in PatchLines(files)[j]
  {
    hide HunkLines, FileHeader, GoodHunk;
    if files != [] {
      HeaderOnLines(files[0]);
      HunksOnLines(files[0].hunks);
      PatchOnLines(files[1..]);
      var a, b, c := FileHeader(files[0]), HunkLines(files[0].hunks), PatchLines(files[1..]);
      assert forall line :: line in a + b + c ==> line in a || line in b || line in c;
    }
  }

  lemma HeaderOnLines(f: File)
    ensures forall j :: 0 <= j < |FileHeader(f)| ==> '\n' !in FileHeader(f)[j]
  {
    hide QuotedPath;
    QuotedOnOneLine(f.path);
  }

  lemma {:induction false} HunksOnLines(hunks: seq<Hunk>)
    requires forall i :: 0 <= i < |hunks| ==> GoodHunk(hunks[i])
    ensures forall j :: 0 <= j < |HunkLines(hunks)| ==> '\n' !in HunkLines(hunks)[j]
  {
    if hunks != [] {
      assert '\n' !in Header(hunks[0]);
      hide Header;
      HunksOnLines(hunks[1..]);
    }
  }

  /**
   Reading a printed patch gives every file, hunk, line and count back. Starts come back
   too, except that an empty range at line 0 reads as line 1, and a modified `/dev/null`
   reads as added (see `Kept`).
   */
  lemma ReadPrinted(files: seq<File>)
    requires forall i :: 0 <= i < |files| ==> GoodFile(files[i])
    ensures ReadPatch(Unlines(PatchLines(files))) == Some(KeptFiles(files))
  {
    PatchOnLines(files);
    LinesUnlines(PatchLines(files));
    ReadPrintedFiles(files);
  }

  // ---------- exactly what printing loses ----------

  lemma RangeKeeps(start: nat, lines: nat)
    ensures Range(KeptStart(start, lines), lines) == Range(start, lines)
  {
  }

  /** A hunk prints as what is kept of it. */
  lemma HeaderKeeps(h: Hunk)
    ensures Header(KeptHunk(h)) == Header(h)
  {
    hide Range;
    RangeKeeps(h.oldStart, h.oldLines);
    RangeKeeps(h.newStart, h.newLines);
  }

  lemma {:induction false} HunksKeep(a: seq<Hunk>, b: seq<Hunk>)
    requires KeptHunks(a) == KeptHunks(b)
    ensures HunkLines(a) == HunkLines(b)
  {
    hide Header;
    assert |a| == |KeptHunks(a)| == |b|;
    if a != [] {
      assert KeptHunk(a[0]) == KeptHunks(a)[0] == KeptHunks(b)[0] == KeptHunk(b[0]);
      HeaderKeeps(a[0]);
      HeaderKeeps(b[0]);
      assert KeptHunks(a[1..]) == KeptHunks(a)[1..] && KeptHunks(b[1..]) == KeptHunks(b)[1..];
      HunksKeep(a[1..], b[1..]);
    }
  }

  lemma FileHeaderKeeps(a: File, b: File)
    requires Kept(a) == Kept(b)
    ensures FileHeader(a) == FileHeader(b)
  {
    hide QuotedPath;
    DevNullIsPlain(a.path);
  }

  lemma {:induction false} FilesKeep(a: seq<File>, b: seq<File>)
    requires KeptFiles(a) == KeptFiles(b)
    ensures PatchLines(a) == PatchLines(b)
  {
    hide FileHeader, HunkLines, KeptHunks;
    assert |a| == |KeptFiles(a)| == |b|;
    if a != [] {
      assert Kept(a[0]) == KeptFiles(a)[0] == KeptFiles(b)[0] == Kept(b[0]);
      FileHeaderKeeps(a[0], b[0]);
      HunksKeep(a[0].hunks, b[0].hunks);
      assert KeptFiles(a[1..]) == KeptFiles(a)[1..] && KeptFiles(b[1..]) == KeptFiles(b)[1..];
      FilesKeep(a[1..], b[1..]);
    }
  }

  /** Two patches print alike exactly when they differ in nothing but what `Kept` forgets. */
  lemma PrintsAlike(a: seq<File>, b: seq<File>)
    requires forall i :: 0 <= i < |a| ==> GoodFile(a[i])
    requires forall i :: 0 <= i < |b| ==> GoodFile(b[i])
    ensures Unlines(PatchLines(a)) == Unlines(PatchLines(b)) <==> KeptFiles(a) == KeptFiles(b)
  {
    hide GoodFile, ReadPatch, Unlines, PatchLines, KeptFiles;
    ReadPrinted(a);
    ReadPrinted(b);
    if KeptFiles(a) == KeptFiles(b) {
      FilesKeep(a, b);
    }
  }

  /** A file whose one hunk inserts a line before `start`. */
  function Insertion(added: bool, path: ByteString, start: nat): File {
    File(added, path, [Hunk(start, 0, 1, 1, ["+x"])])
  }

  lemma InsertionIsGood(added: bool, path: ByteString, start: nat)
    requires IsAbsolute(path) && '\n' !in path
    ensures GoodFile(Insertion(added, path, start))
  {
    var line := "+x";
    assert line[0] == '+' && ['+'] <= line && !(['-'] <= line);
    CountAppend([], line, '+');
    CountAppend([], line, '-');
    assert [] + [line] == [line];
  }

  /** The first loss: the same insertion at line 0 and at line 1 of any file. */
  lemma EmptyRangeAtZero(added: bool, path: ByteString)
    requires IsAbsolute(path) && '\n' !in path
    ensures var a, b := Insertion(added, path, 0), Insertion(added, path, 1);
      && GoodFile(a) && GoodFile(b) && a != b
      && Unlines(PatchLines([a])) == Unlines(PatchLines([b]))
  {
    hide GoodFile, Unlines, PatchLines;
    var a, b := Insertion(added, path, 0), Insertion(added, path, 1);
    InsertionIsGood(added, path, 0);
    InsertionIsGood(added, path, 1);
    assert a.hunks[0].oldStart != b.hunks[0].oldStart;
    assert KeptHunks(a.hunks) == KeptHunks(b.hunks);
    assert KeptFiles([a]) == KeptFiles([b]);
    PrintsAlike([a], [b]);
  }

  /** The second: `/dev/null` modified and added, by any insertion. */
  lemma ModifiedDevNull(start: nat)
    ensures var a, b := Insertion(false, "/dev/null", start), Insertion(true, "/dev/null", start);
      && GoodFile(a) && GoodFile(b) && a != b
      && Unlines(PatchLines([a])) == Unlines(PatchLines([b]))
  {
    hide GoodFile, Unlines, PatchLines;
    var a, b := Insertion(false, "/dev/null", start), Insertion(true, "/dev/null", start);
    InsertionIsGood(false, "/dev/null", start);
    InsertionIsGood(true, "/dev/null", start);
    assert KeptFiles([a]) == KeptFiles([b]);
    PrintsAlike([a], [b]);
  }

  /** No empty range starts at line 0, and `/dev/null` is not modified. */
  predicate Lossless(f: File) {
    && (f.path == "/dev/null" ==> f.added)
    && (forall h :: h in f.hunks ==> !(h.oldStart == 0 && h.oldLines == 0) && !(h.newStart == 0 && h.newLines == 0))
  }

  /** The printed text of a file reads back as that very file exactly when it is lossless. */
  lemma PrintingIsExact(f: File)
    requires GoodFile(f)
    ensures ReadPatch(Unlines(PatchLines([f]))) == Some([Printed(f.added, f.path, f.hunks)]) <==> Lossless(f)
  {
    hide GoodFile, ReadPatch, Unlines, PatchLines;
    ReadPrinted([f]);
    assert KeptFiles([f]) == [Kept(f)];
    LosslessIsKept(f);
    var back := Printed(f.added, f.path, f.hunks);
    assert [Kept(f)] == [back] <==> Kept(f) == back by { assert [Kept(f)][0] == Kept(f) && [back][0] == back; }
  }

  lemma LosslessIsKept(f: File)
    ensures Kept(f) == Printed(f.added, f.path, f.hunks) <==> Lossless(f)
  {
    var kept := KeptHunks(f.hunks);
    assert forall i :: 0 <= i < |f.hunks| ==> kept[i] == KeptHunk(f.hunks[i]) && f.hunks[i] in f.hunks;
    if kept == f.hunks {
      forall h | h in f.hunks ensures KeptHunk(h) == h {
        var i :| 0 <= i < |f.hunks| && f.hunks[i] == h;
        assert kept[i] == h;
      }
    }
    if forall h :: h in f.hunks ==> KeptHunk(h) == h {
      assert kept == f.hunks;
    }
  }
}
