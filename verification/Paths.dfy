/**
 Path confinement for the editor tools (`resolve_path` in `src/bridge.rs`) over a file
 system with symbolic links: what the program's backward search for the deepest existing
 part finds is what walking the path forward reaches.
 */
module Paths {
  import opened Options
  import opened Text
  import Http
  import HttpFraming

  type Name = string

  /** The components of an absolute path. */
  type Path = seq<Name>

  datatype Node = Directory | File | Link(target: string)

  /** Every node but the root, which is a directory. */
  type FileSystem = map<Path, Node>

  /** How many links the system follows before it reports a loop. */
  const MAX_LINKS: nat := 40

  predicate Exists(fs: FileSystem, p: Path) { p == [] || p in fs }

  function Lookup(fs: FileSystem, p: Path): Node
    requires Exists(fs, p)
  {
    if p == [] then Directory else fs[p]
  }

  function Parent(p: Path): Path {
    if p == [] then [] else p[..|p| - 1]
  }

  /** Every node lies in a directory. */
  ghost predicate WellFormed(fs: FileSystem) {
    forall p :: p in fs ==> p != [] && Exists(fs, Parent(p)) && Lookup(fs, Parent(p)).Directory?
  }

  predicate Plain(name: Name) { name != "" && name != "." && name != ".." && '/' !in name }

  predicate AllPlain(p: Path) { forall i :: 0 <= i < |p| ==> Plain(p[i]) }

  /** The components of a path text; an empty one stands for `.`. */
  function Pieces(s: string): (r: seq<string>)
    ensures forall i :: 0 <= i < |r| ==> '/' !in r[i] && r[i] != ""
    decreases |s|
  {
    var n := IndexOf(s, '/');
    var first := if n == 0 then "." else s[..n];
    if n == |s| then [first] else [first] + Pieces(s[n + 1..])
  }

  /** The first component, up to the first slash. */
  lemma PiecesFirst(name: string, rest: string)
    requires '/' !in name
    ensures Pieces(name + "/" + rest) == [if name == "" then "." else name] + Pieces(rest)
  {
    var s := name + "/" + rest;
    IndexOfFirst(name, '/', rest);
    assert s == name + ['/'] + rest;
    assert s[..|name|] == name && s[|name| + 1..] == rest;
  }

  lemma PiecesOne(name: string)
    requires '/' !in name
    ensures Pieces(name) == [if name == "" then "." else name]
  {
    IndexOfNone(name, '/');
    assert name[..|name|] == name;
  }

  /** Joining texts with a slash joins their components. */
  lemma {:induction false} PiecesJoin(a: string, b: string)
    ensures Pieces(a + "/" + b) == Pieces(a) + Pieces(b)
    decreases |a|
  {
    hide Pieces;
    var n := IndexOf(a, '/');
    if n == |a| {
      assert a[..n] == a;
      PiecesOne(a);
      PiecesFirst(a, b);
    } else {
      var name, rest := a[..n], a[n + 1..];
      PiecesFirst(name, rest);
      PiecesFirst(name, rest + "/" + b);
      PiecesJoin(rest, b);
      assert a == name + "/" + rest;
      assert a + "/" + b == name + "/" + (rest + "/" + b);
    }
  }

  predicate IsAbsolute(s: string) { s != "" && s[0] == '/' }

  // ---------- how the system resolves a path ----------

  /**
   Where a walk ends: at an existing place (with the links it may still follow), at a
   component of the path itself that does not exist, with the components from there on, or
   in an error. `Dangling` is a missing component inside the target of a link.
   */
  datatype Reached =
    | Found(at: Path, left: nat)
    | Missing(dir: Path, rest: Path)
    | Dangling
    | NotDirectory
    | Loop

  /** From `cur`, follow `pending` (the rest of a link's target), then the path's own parts. */
  function Walk(fs: FileSystem, cur: Path, pending: seq<string>, own: seq<string>, links: nat): Reached
    decreases links, |pending| + |own|
  {
    if pending == [] && own == [] then Found(cur, links)
    else if !Exists(fs, cur) || !Lookup(fs, cur).Directory? then NotDirectory
    else
      var name := if pending != [] then pending[0] else own[0];
      var pending', own' := if pending != [] then pending[1..] else [], if pending != [] then own else own[1..];
      if name == "." then Walk(fs, cur, pending', own', links)
      else if name == ".." then Walk(fs, Parent(cur), pending', own', links)
      else
        var next := cur + [name];
        if next !in fs then (if pending != [] then Dangling else Missing(cur, own))
        else
          match fs[next]
          case Link(target) =>
            if links == 0 then Loop
            else
              Walk(fs, if IsAbsolute(target) then [] else cur, Pieces(target) + pending', own', links - 1)
          case _ => Walk(fs, next, pending', own', links)
  }

  function Canonicalize(fs: FileSystem, p: Path): Reached {
    Walk(fs, [], [], p, MAX_LINKS)
  }

  datatype Stat = IsLink | IsOther | NotFound | Failed

  /** `symlink_metadata`: everything but the last component is resolved. */
  function Lstat(fs: FileSystem, p: Path): Stat {
    if p == [] then IsOther
    else
      match Canonicalize(fs, Parent(p))
      case Found(dir, _) =>
        if !Exists(fs, dir) || !Lookup(fs, dir).Directory? then Failed
        else if dir + [p[|p| - 1]] !in fs then NotFound
        else if fs[dir + [p[|p| - 1]]].Link? then IsLink
        else IsOther
      case Missing(_, _) => NotFound
      case Dangling => NotFound
      case _ => Failed
  }

  // ---------- walks compose ----------

  function Then(fs: FileSystem, first: Reached, b: Path): Reached {
    match first
    case Found(at, left) => Walk(fs, at, [], b, left)
    case Missing(dir, rest) => Missing(dir, rest + b)
    case _ => first
  }

  lemma {:induction false} WalkInParts(fs: FileSystem, cur: Path, pending: seq<string>, a: Path, b: Path, links: nat)
    ensures Walk(fs, cur, pending, a + b, links) == Then(fs, Walk(fs, cur, pending, a, links), b)
    decreases links, |pending| + |a|
  {
    if pending == [] && a == [] {
      assert a + b == b;
    } else if Exists(fs, cur) && Lookup(fs, cur).Directory? {
      var name := if pending != [] then pending[0] else a[0];
      var pending', a' := if pending != [] then pending[1..] else [], if pending != [] then a else a[1..];
      assert pending == [] ==> (a + b)[0] == a[0] && (a + b)[1..] == a[1..] + b;
      var next := cur + [name];
      if name == "." {
        WalkInParts(fs, cur, pending', a', b, links);
      } else if name == ".." {
        WalkInParts(fs, Parent(cur), pending', a', b, links);
      } else if next in fs {
        match fs[next]
        case Link(target) =>
          if links > 0 {
            WalkInParts(fs, if IsAbsolute(target) then [] else cur, Pieces(target) + pending', a', b, links - 1);
          }
        case _ => WalkInParts(fs, next, pending', a', b, links);
      }
    }
  }

  // ---------- the program's search ----------

  /** Drop missing components from the end until the rest resolves. */
  function Search(fs: FileSystem, existing: Path, missing: Path): Option<Path>
    decreases |existing|
  {
    match Canonicalize(fs, existing)
    case Found(at, _) => Some(at + missing)
    case _ =>
      if Lstat(fs, existing) == NotFound && existing != [] then
        Search(fs, Parent(existing), [existing[|existing| - 1]] + missing)
      else None
  }

  /** Where a path leads, walking forward: an existing place, or the place where its missing
      components would be created. */
  function Location(r: Reached): Option<Path> {
    match r
    case Found(at, _) => Some(at)
    case Missing(dir, rest) => Some(dir + rest)
    case _ => None
  }

  function Append(p: Option<Path>, more: Path): Option<Path> {
    if p.None? then None else Some(p.value + more)
  }

  /** One more plain component. */
  lemma LastStep(fs: FileSystem, dir: Path, name: Name, left: nat)
    requires Plain(name)
    ensures var r := Walk(fs, dir, [], [name], left);
      if !Exists(fs, dir) || !Lookup(fs, dir).Directory? then r == NotDirectory
      else if dir + [name] !in fs then r == Missing(dir, [name])
      else if fs[dir + [name]].Link? then !r.Missing?
      else r == Found(dir + [name], left)
  {
    if Exists(fs, dir) && Lookup(fs, dir).Directory? && dir + [name] in fs && fs[dir + [name]].Link? && left > 0 {
      var target := fs[dir + [name]].target;
      OnlyLinkParts(fs, if IsAbsolute(target) then [] else dir, Pieces(target) + [], left - 1);
      assert [name][1..] == [];
    }
  }

  lemma {:induction false} OnlyLinkParts(fs: FileSystem, cur: Path, pending: seq<string>, links: nat)
    ensures !Walk(fs, cur, pending, [], links).Missing?
    decreases links, |pending|
  {
    if pending != [] && Exists(fs, cur) && Lookup(fs, cur).Directory? {
      var name := pending[0];
      var next := cur + [name];
      if name == "." {
        OnlyLinkParts(fs, cur, pending[1..], links);
      } else if name == ".." {
        OnlyLinkParts(fs, Parent(cur), pending[1..], links);
      } else if next in fs {
        match fs[next]
        case Link(target) =>
          if links > 0 {
            OnlyLinkParts(fs, if IsAbsolute(target) then [] else cur, Pieces(target) + pending[1..], links - 1);
          }
        case _ => OnlyLinkParts(fs, next, pending[1..], links);
      }
    }
  }

  /** The backward search finds what the forward walk reaches, and fails where it fails. */
  lemma {:induction false} SearchIsWalk(fs: FileSystem, existing: Path, missing: Path)
    requires AllPlain(existing)
    ensures Search(fs, existing, missing) == Append(Location(Canonicalize(fs, existing)), missing)
    decreases |existing|
  {
    hide Walk, Lookup, Exists, Lstat;
    if existing == [] {
      RootFound(fs);
    } else if !Canonicalize(fs, existing).Found? {
      var parent, name := Parent(existing), existing[|existing| - 1];
      assert existing == parent + [name];
      SearchIsWalk(fs, parent, [name] + missing);
      LastLocation(fs, parent, name, missing);
    }
  }

  lemma RootFound(fs: FileSystem)
    ensures Canonicalize(fs, []) == Found([], MAX_LINKS)
  {
  }

  /** One component more, when the path does not resolve: whether it is dropped, and where the
      path then leads. */
  lemma LastLocation(fs: FileSystem, parent: Path, name: Name, missing: Path)
    requires Plain(name) && !Canonicalize(fs, parent + [name]).Found?
    ensures Append(Location(Canonicalize(fs, parent + [name])), missing)
      == if Lstat(fs, parent + [name]) == NotFound then Append(Location(Canonicalize(fs, parent)), [name] + missing)
         else None
  {
    hide Walk, Lookup, Exists;
    var p := parent + [name];
    assert Parent(p) == parent && p[|p| - 1] == name;
    WalkInParts(fs, [], [], parent, [name], MAX_LINKS);
    match Canonicalize(fs, parent)
    case Found(dir, left) =>
      LastStep(fs, dir, name, left);
      assert dir + ([name] + missing) == dir + [name] + missing;
    case Missing(dir, rest) =>
      assert dir + rest + ([name] + missing) == dir + (rest + [name]) + missing;
    case _ =>
  }

  // ---------- places without links ----------

  /** The way to `p` leads through directories only, and `p` itself is no link. */
  ghost predicate Physical(fs: FileSystem, p: Path) {
    && Exists(fs, p) && !Lookup(fs, p).Link?
    && (forall i :: 0 <= i < |p| ==> Exists(fs, p[..i]) && Lookup(fs, p[..i]).Directory?)
  }

  lemma PhysicalStep(fs: FileSystem, cur: Path, name: Name)
    requires Physical(fs, cur) && Lookup(fs, cur).Directory?
    ensures Physical(fs, Parent(cur)) && Lookup(fs, Parent(cur)).Directory?
    ensures cur + [name] in fs && !fs[cur + [name]].Link? ==> Physical(fs, cur + [name])
  {
    var next := cur + [name];
    assert forall i :: 0 <= i <= |cur| ==> next[..i] == cur[..i];
    assert cur[..|cur|] == cur;
    var up := Parent(cur);
    assert forall i :: 0 <= i <= |up| ==> up[..i] == cur[..i];
  }

  /** A walk ends at a physical place, or with a missing component in a physical directory. */
  lemma {:induction false} WalkIsPhysical(fs: FileSystem, cur: Path, pending: seq<string>, own: seq<string>, links: nat)
    requires Physical(fs, cur)
    ensures var r := Walk(fs, cur, pending, own, links);
      && (r.Found? ==> Physical(fs, r.at))
      && (r.Missing? ==> Physical(fs, r.dir) && Lookup(fs, r.dir).Directory?)
      && (r.Missing? ==> r.rest != [] && r.dir + [r.rest[0]] !in fs)
    decreases links, |pending| + |own|
  {
    hide Physical;
    if (pending != [] || own != []) && Exists(fs, cur) && Lookup(fs, cur).Directory? {
      var name := if pending != [] then pending[0] else own[0];
      var pending', own' := if pending != [] then pending[1..] else [], if pending != [] then own else own[1..];
      PhysicalStep(fs, cur, name);
      var next := cur + [name];
      if name == "." {
        WalkIsPhysical(fs, cur, pending', own', links);
      } else if name == ".." {
        WalkIsPhysical(fs, Parent(cur), pending', own', links);
      } else if next in fs {
        match fs[next]
        case Link(target) =>
          if links > 0 {
            assert Physical(fs, []) by { RootIsPhysical(fs); }
            WalkIsPhysical(fs, if IsAbsolute(target) then [] else cur, Pieces(target) + pending', own', links - 1);
          }
        case _ => WalkIsPhysical(fs, next, pending', own', links);
      }
    }
  }

  lemma PhysicalExists(fs: FileSystem, p: Path)
    requires Physical(fs, p)
    ensures Exists(fs, p)
  {
  }

  lemma RootIsPhysical(fs: FileSystem)
    ensures Physical(fs, [])
  {
  }

  // ---------- creating what is missing ----------

  /** Directories for all but the last of the missing components, and a file for the last. */
  function Create(fs: FileSystem, dir: Path, rest: Path): FileSystem
    requires rest != []
    decreases |rest|
  {
    if |rest| == 1 then fs[dir + rest := File]
    else Create(fs[dir + [rest[0]] := Directory], dir + [rest[0]], rest[1..])
  }

  lemma {:induction false} CreateExtends(fs: FileSystem, dir: Path, rest: Path)
    requires WellFormed(fs) && rest != [] && Exists(fs, dir) && Lookup(fs, dir).Directory? && dir + [rest[0]] !in fs
    ensures forall p :: p in fs ==> p in Create(fs, dir, rest) && Create(fs, dir, rest)[p] == fs[p]
    decreases |rest|
  {
    if |rest| == 1 {
      assert rest == [rest[0]];
    } else {
      MakeDirectory(fs, dir, rest[0], rest[1]);
      CreateExtends(fs[dir + [rest[0]] := Directory], dir + [rest[0]], rest[1..]);
    }
  }

  lemma MakeDirectory(fs: FileSystem, dir: Path, name: Name, below: Name)
    requires WellFormed(fs) && Exists(fs, dir) && Lookup(fs, dir).Directory? && dir + [name] !in fs
    ensures var next := dir + [name];
      WellFormed(fs[next := Directory]) && next + [below] !in fs[next := Directory]
  {
    var next := dir + [name];
    assert Parent(next) == dir && Parent(next + [below]) == next;
  }

  /** A plain component that is there and no link leads one step down. */
  lemma StepDown(fs: FileSystem, dir: Path, rest: Path, links: nat)
    requires rest != [] && Plain(rest[0]) && Exists(fs, dir) && Lookup(fs, dir).Directory?
    requires dir + [rest[0]] in fs && !fs[dir + [rest[0]]].Link?
    ensures Walk(fs, dir, [], rest, links) == Walk(fs, dir + [rest[0]], [], rest[1..], links)
  {
  }

  lemma {:induction false} WalkCreated(fs: FileSystem, dir: Path, rest: Path, links: nat)
    requires WellFormed(fs) && rest != [] && AllPlain(rest)
    requires Exists(fs, dir) && Lookup(fs, dir).Directory? && dir + [rest[0]] !in fs
    ensures Walk(Create(fs, dir, rest), dir, [], rest, links) == Found(dir + rest, links)
    decreases |rest|
  {
    hide Walk, WellFormed;
    var made := Create(fs, dir, rest);
    var next := dir + [rest[0]];
    CreateExtends(fs, dir, rest);
    if |rest| == 1 {
      assert rest == [rest[0]] && rest[1..] == [];
      StepDown(made, dir, rest, links);
      WalkNothing(made, next, links);
    } else {
      MakeDirectory(fs, dir, rest[0], rest[1]);
      var with := fs[next := Directory];
      CreateExtends(with, next, rest[1..]);
      assert with[next] == Directory;
      WalkCreated(with, next, rest[1..], links);
      StepDown(made, dir, rest, links);
      assert next + rest[1..] == dir + rest;
    }
  }

  lemma WalkNothing(fs: FileSystem, cur: Path, links: nat)
    ensures Walk(fs, cur, [], [], links) == Found(cur, links)
  {
  }

  /** More nodes do not change where a walk that succeeds ends. */
  lemma {:induction false} WalkExtends(fs: FileSystem, more: FileSystem, cur: Path, pending: seq<string>,
    own: seq<string>, links: nat)
    requires forall p :: p in fs ==> p in more && more[p] == fs[p]
    requires Walk(fs, cur, pending, own, links).Found?
    ensures Walk(more, cur, pending, own, links) == Walk(fs, cur, pending, own, links)
    decreases links, |pending| + |own|
  {
    if pending != [] || own != [] {
      var name := if pending != [] then pending[0] else own[0];
      var pending', own' := if pending != [] then pending[1..] else [], if pending != [] then own else own[1..];
      var next := cur + [name];
      if name == "." {
        WalkExtends(fs, more, cur, pending', own', links);
      } else if name == ".." {
        WalkExtends(fs, more, Parent(cur), pending', own', links);
      } else {
        match fs[next]
        case Link(target) =>
          WalkExtends(fs, more, if IsAbsolute(target) then [] else cur, Pieces(target) + pending', own', links - 1);
        case _ => WalkExtends(fs, more, next, pending', own', links);
      }
    }
  }

  /** The part of the path before the missing components resolves to their directory. */
  lemma {:induction false} BeforeMissing(fs: FileSystem, own: Path) returns (k: nat, left: nat)
    requires AllPlain(own) && Canonicalize(fs, own).Missing?
    ensures var r := Canonicalize(fs, own);
      k < |own| && own[k..] == r.rest && Canonicalize(fs, own[..k]) == Found(r.dir, left)
    decreases |own|
  {
    hide Walk, Lookup;
    WalkNothing(fs, [], MAX_LINKS);
    var parent, name := Parent(own), own[|own| - 1];
    assert own == parent + [name];
    WalkInParts(fs, [], [], parent, [name], MAX_LINKS);
    var up := Canonicalize(fs, parent);
    if up.Found? {
      LastMissing(fs, up.at, name, up.left);
      k, left := |parent|, up.left;
      assert own[k..] == [name] && own[..k] == parent;
    } else {
      k, left := BeforeMissing(fs, parent);
      assert own[k..] == parent[k..] + [name] && own[..k] == parent[..k];
    }
  }

  lemma LastMissing(fs: FileSystem, dir: Path, name: Name, left: nat)
    requires Plain(name) && Walk(fs, dir, [], [name], left).Missing?
    ensures Walk(fs, dir, [], [name], left) == Missing(dir, [name])
  {
    LastStep(fs, dir, name, left);
  }

  /** Creating the missing components makes the path resolve to the location found before. */
  lemma CreatedWhereFound(fs: FileSystem, own: Path)
    requires WellFormed(fs) && AllPlain(own) && Canonicalize(fs, own).Missing?
    ensures var r := Canonicalize(fs, own);
      r.rest != [] && Location(Canonicalize(Create(fs, r.dir, r.rest), own)) == Some(r.dir + r.rest) == Location(r)
  {
    hide Walk, Create, WellFormed, Lookup, Physical;
    var r := Canonicalize(fs, own);
    RootIsPhysical(fs);
    WalkIsPhysical(fs, [], [], own, MAX_LINKS);
    PhysicalExists(fs, r.dir);
    var k, left := BeforeMissing(fs, own);
    var made := Create(fs, r.dir, r.rest);
    assert AllPlain(r.rest);
    CreateExtends(fs, r.dir, r.rest);
    WalkCreated(fs, r.dir, r.rest, left);
    WalkExtends(fs, made, [], [], own[..k], MAX_LINKS);
    WalkInParts(made, [], [], own[..k], own[k..], MAX_LINKS);
    assert own[..k] + own[k..] == own;
  }

  // ---------- the whole check ----------

  /** `.` and `..` resolved in the text alone, starting from `cur`. */
  function Normalize(cur: Path, parts: seq<string>): Path
    decreases |parts|
  {
    if parts == [] then cur
    else if parts[0] == "." then Normalize(cur, parts[1..])
    else if parts[0] == ".." then Normalize(Parent(cur), parts[1..])
    else Normalize(cur + [parts[0]], parts[1..])
  }

  lemma {:induction false} NormalizePlain(cur: Path, parts: seq<string>)
    requires AllPlain(cur) && forall i :: 0 <= i < |parts| ==> '/' !in parts[i] && parts[i] != ""
    ensures AllPlain(Normalize(cur, parts))
    decreases |parts|
  {
    if parts != [] {
      var next := if parts[0] == "." then cur else if parts[0] == ".." then Parent(cur) else cur + [parts[0]];
      NormalizePlain(next, parts[1..]);
    }
  }

  /** Where no link is involved, that is what the system does with them. */
  lemma {:induction false} NormalizeIsWalk(fs: FileSystem, cur: Path, parts: seq<string>, links: nat)
    requires (forall p :: p in fs ==> !fs[p].Link?) && Walk(fs, cur, parts, [], links).Found?
    ensures Walk(fs, cur, parts, [], links).at == Normalize(cur, parts)
    decreases |parts|
  {
    if parts != [] {
      var next := if parts[0] == "." then cur else if parts[0] == ".." then Parent(cur) else cur + [parts[0]];
      NormalizeIsWalk(fs, next, parts[1..], links);
    }
  }

  /** The text's components, after the session's directory when it is relative. */
  function Joined(raw: string, cwd: string): Option<seq<string>> {
    if IsAbsolute(raw) then Some(Pieces(raw))
    else if IsAbsolute(cwd) then Some(Pieces(cwd) + Pieces(raw))
    else None
  }

  /** A relative text means the same as the absolute one under the session's directory. */
  lemma RelativeIsUnderCwd(fs: FileSystem, here: Path, raw: string, cwd: string, roots: seq<string>)
    requires !IsAbsolute(raw) && IsAbsolute(cwd) && Http.Trim(raw) != ""
    ensures Judge(fs, here, raw, cwd, roots) == Judge(fs, here, cwd + "/" + raw, "", roots)
  {
    hide Canonicalize, Inside, Normalize, Http.Trim;
    PiecesJoin(cwd, raw);
    NotBlank(cwd + "/" + raw);
  }

  lemma NotBlank(s: string)
    requires IsAbsolute(s)
    ensures Http.Trim(s) != ""
  {
    hide Http.TrimStart, Http.TrimEnd;
    HttpFraming.SolidFirst(s);
    KeepsFirst(s);
  }

  lemma {:induction false} KeepsFirst(s: string)
    requires IsAbsolute(s)
    ensures IsAbsolute(Http.TrimEnd(s))
    decreases |s|
  {
    hide Http.White;
    var n := if Http.White(s[|s| - 1..]) then 1 else if |s| >= 2 && Http.White(s[|s| - 2..]) then 2
      else if |s| >= 3 && Http.White(s[|s| - 3..]) then 3 else 0;
    if n > 0 {
      EndIsShorter(s, n);
      KeepsFirst(s[..|s| - n]);
    }
  }

  lemma EndIsShorter(s: string, n: nat)
    requires IsAbsolute(s) && n <= |s| && Http.White(s[|s| - n..])
    ensures n < |s|
  {
    hide Http.White;
    assert s[|s| - |s|..] == s;
    HttpFraming.SolidIsNotWhite(s);
  }

  /** A root's canonical path; a relative root starts at the process's directory `here`. */
  function RootPath(fs: FileSystem, here: Path, root: string): Option<Path> {
    if root == "" then None
    else
      match Walk(fs, if IsAbsolute(root) then [] else here, Pieces(root), [], MAX_LINKS)
      case Found(at, _) => Some(at)
      case _ => None
  }

  predicate Inside(fs: FileSystem, here: Path, roots: seq<string>, at: Path) {
    exists i :: 0 <= i < |roots| && RootPath(fs, here, roots[i]).Some? && RootPath(fs, here, roots[i]).value <= at
  }

  datatype Verdict = Accepted(path: Path) | EmptyPath | NoWorkspace | Unresolved | Outside

  /** What the check should say: the forward walk decides. */
  function Judge(fs: FileSystem, here: Path, raw: string, cwd: string, roots: seq<string>): Verdict {
    if Http.Trim(raw) == "" then EmptyPath
    else
      var parts := Joined(raw, cwd);
      if parts.None? then NoWorkspace
      else
        var path := Normalize([], parts.value);
        var at := Location(Canonicalize(fs, path));
        if at.None? then Unresolved
        else if Inside(fs, here, roots, at.value) then Accepted(path)
        else Outside
  }

  // ---------- what is accepted, in other words ----------

  /** Nothing but white-space characters. */
  predicate AllWhite(s: string) {
    || s == ""
    || (exists n :: 1 <= n <= 3 && n <= |s| && Http.White(s[..n]) && AllWhite(s[n..]))
  }

  lemma {:induction false} StartIsWhite(s: string)
    ensures Http.TrimStart(s) == "" ==> AllWhite(s)
    decreases |s|
  {
    hide Http.White;
    forall n | 1 <= n <= 3 && n <= |s| ensures Http.TrimStart(s[n..]) == "" ==> AllWhite(s[n..]) {
      StartIsWhite(s[n..]);
    }
  }

  /** No white-space character begins another. */
  lemma OneWhite(s: string, m: nat, n: nat)
    requires m <= |s| && n <= |s| && Http.White(s[..m]) && Http.White(s[..n])
    ensures m == n
  {
  }

  lemma {:induction false} WhiteIsTrimmed(s: string)
    requires AllWhite(s)
    ensures Http.TrimStart(s) == ""
    decreases |s|
  {
    hide Http.White;
    if s != "" {
      var n :| 1 <= n <= 3 && n <= |s| && Http.White(s[..n]) && AllWhite(s[n..]);
      WhiteIsTrimmed(s[n..]);
      forall m: nat | m <= |s| && Http.White(s[..m]) ensures m == n {
        OneWhite(s, m, n);
      }
    }
  }

  lemma {:induction false} WhiteAppends(a: string, b: string)
    requires AllWhite(a) && AllWhite(b)
    ensures AllWhite(a + b)
    decreases |a|
  {
    hide Http.White;
    if a == "" {
      assert a + b == b;
    } else {
      var n :| 1 <= n <= 3 && n <= |a| && Http.White(a[..n]) && AllWhite(a[n..]);
      assert (a + b)[..n] == a[..n] && (a + b)[n..] == a[n..] + b;
      WhiteAppends(a[n..], b);
    }
  }

  lemma LastWhite(s: string) returns (k: nat)
    requires s != "" && Http.TrimEnd(s) == ""
    ensures k < |s| && |s| - k <= 3 && Http.White(s[k..]) && Http.TrimEnd(s[..k]) == ""
  {
    hide Http.White;
    k := if Http.White(s[|s| - 1..]) then |s| - 1 else if |s| >= 2 && Http.White(s[|s| - 2..]) then |s| - 2
      else |s| - 3;
  }

  lemma JustWhite(s: string)
    requires 1 <= |s| <= 3 && Http.White(s)
    ensures AllWhite(s)
  {
    hide Http.White;
    assert s[..|s|] == s && s[|s|..] == "";
  }

  lemma {:induction false} EndIsWhite(s: string)
    requires Http.TrimEnd(s) == ""
    ensures AllWhite(s)
    decreases |s|
  {
    hide Http.White, Http.TrimEnd, AllWhite;
    if s == "" {
      WhiteNothing();
    } else {
      var k := LastWhite(s);
      EndIsWhite(s[..k]);
      JustWhite(s[k..]);
      WhiteAppends(s[..k], s[k..]);
      assert s == s[..k] + s[k..];
    }
  }

  lemma WhiteNothing()
    ensures AllWhite("")
  {
  }

  lemma {:induction false} StartIsTrimmed(s: string)
    ensures Http.TrimStart(Http.TrimStart(s)) == Http.TrimStart(s)
    decreases |s|
  {
    hide Http.White;
    if |s| >= 1 && Http.White(s[..1]) {
      StartIsTrimmed(s[1..]);
    } else if |s| >= 2 && Http.White(s[..2]) {
      StartIsTrimmed(s[2..]);
    } else if |s| >= 3 && Http.White(s[..3]) {
      StartIsTrimmed(s[3..]);
    }
  }

  /** Trimming leaves nothing exactly of white space. */
  lemma BlankIsWhite(s: string)
    ensures Http.Trim(s) == "" <==> AllWhite(s)
  {
    hide Http.TrimStart, Http.TrimEnd, AllWhite;
    var t := Http.TrimStart(s);
    if Http.Trim(s) == "" {
      EndIsWhite(t);
      WhiteIsTrimmed(t);
      StartIsTrimmed(s);
      StartIsWhite(s);
    }
    if AllWhite(s) {
      WhiteIsTrimmed(s);
      HttpFraming.NothingToTrim();
    }
  }

  /** The text from the root on. */
  function Whole(raw: string, cwd: string): string {
    if IsAbsolute(raw) then raw else cwd + "/" + raw
  }

  /** The path leads, through what exists, to a place under some root. */
  ghost predicate Lands(fs: FileSystem, here: Path, path: Path, roots: seq<string>) {
    exists i, at, root :: 0 <= i < |roots| && root <= at
      && Location(Canonicalize(fs, path)) == Some(at) && RootPath(fs, here, roots[i]) == Some(root)
  }

  lemma LandsInside(fs: FileSystem, here: Path, path: Path, roots: seq<string>)
    ensures var at := Location(Canonicalize(fs, path));
      Lands(fs, here, path, roots) <==> at.Some? && Inside(fs, here, roots, at.value)
  {
    hide Canonicalize, RootPath;
    var at := Location(Canonicalize(fs, path));
    if at.Some? && Inside(fs, here, roots, at.value) {
      var i :| 0 <= i < |roots| && RootPath(fs, here, roots[i]).Some?
        && RootPath(fs, here, roots[i]).value <= at.value;
      assert RootPath(fs, here, roots[i]) == Some(RootPath(fs, here, roots[i]).value);
    }
  }

  /**
   Acceptance, over all roots: a text that is not blank, absolute or with an absolute session
   directory, whose path, with the dots resolved, leads to a place under some root. The path is
   then the answer; every other case has its own error.
   */
  lemma JudgeMeaning(fs: FileSystem, here: Path, raw: string, cwd: string, roots: seq<string>)
    ensures var v := Judge(fs, here, raw, cwd, roots);
      var path := Normalize([], Pieces(Whole(raw, cwd)));
      if AllWhite(raw) then v == EmptyPath
      else if !IsAbsolute(raw) && !IsAbsolute(cwd) then v == NoWorkspace
      else if Location(Canonicalize(fs, path)).None? then v == Unresolved
      else if Lands(fs, here, path, roots) then v == Accepted(path)
      else v == Outside
    ensures forall path :: Judge(fs, here, raw, cwd, roots) == Accepted(path) <==>
      && !AllWhite(raw) && (IsAbsolute(raw) || IsAbsolute(cwd))
      && path == Normalize([], Pieces(Whole(raw, cwd))) && Lands(fs, here, path, roots)
  {
    hide Canonicalize, Inside, Lands, Normalize, Pieces, AllWhite, Http.Trim;
    BlankIsWhite(raw);
    PiecesJoin(cwd, raw);
    LandsInside(fs, here, Normalize([], Pieces(Whole(raw, cwd))), roots);
  }

  lemma {:induction false} NormalizeInParts(cur: Path, a: seq<string>, b: seq<string>)
    ensures Normalize(cur, a + b) == Normalize(Normalize(cur, a), b)
    decreases |a|
  {
    if a == [] {
      assert a + b == b;
    } else {
      assert (a + b)[1..] == a[1..] + b;
      var next := if a[0] == "." then cur else if a[0] == ".." then Parent(cur) else cur + [a[0]];
      NormalizeInParts(next, a[1..], b);
    }
  }

  lemma {:induction false} PlainIsNormal(cur: Path, p: Path)
    requires AllPlain(p)
    ensures Normalize(cur, p) == cur + p
    decreases |p|
  {
    if p != [] {
      PlainIsNormal(cur + [p[0]], p[1..]);
    }
  }

  /** The laws that fix the dots: `.` stands for nothing, `..` takes back the component before
      it, at the root it stands for nothing, and a path without dots stays. */
  lemma DotLaws(a: seq<string>, name: Name, b: seq<string>)
    requires Plain(name)
    ensures Normalize([], a + ["."] + b) == Normalize([], a + b)
    ensures Normalize([], a + [name, ".."] + b) == Normalize([], a + b)
    ensures Normalize([], [".."] + b) == Normalize([], b)
    ensures AllPlain(a) ==> Normalize([], a) == a
  {
    hide Normalize;
    var at := Normalize([], a);
    NormalizeInParts([], a, b);
    NormalizeInParts([], a + ["."], b);
    NormalizeInParts([], a, ["."]);
    NormalizeInParts([], a + [name, ".."], b);
    NormalizeInParts([], a, [name, ".."]);
    NormalizeInParts([], [".."], b);
    ShortDots(at, name);
    ShortDots([], name);
    if AllPlain(a) {
      PlainIsNormal([], a);
    }
  }

  lemma ShortDots(at: Path, name: Name)
    requires Plain(name)
    ensures Normalize(at, ["."]) == at && Normalize(at, [".."]) == Parent(at) && Normalize(at, [name, ".."]) == at
  {
    assert ["."][1..] == [] && [".."][1..] == [] && [name, ".."][1..] == [".."];
    assert (at + [name])[..|at|] == at;
  }

  /** The text of a path, as the check returns it. */
  function Shown(p: Path): string {
    if p == [] then "/" else if |p| == 1 then "/" + p[0] else "/" + p[0] + Shown(p[1..])
  }

  lemma {:induction false} ShownReads(p: Path)
    requires AllPlain(p)
    ensures IsAbsolute(Shown(p)) && Pieces(Shown(p)) == ["."] + if p == [] then ["."] else p
    decreases |p|
  {
    hide Pieces;
    PiecesFirst("", "");
    PiecesOne("");
    if |p| == 1 {
      PiecesFirst("", p[0]);
      PiecesOne(p[0]);
      assert "" + "/" + p[0] == Shown(p);
    } else if |p| > 1 {
      ShownReads(p[1..]);
      var tail := Shown(p[1..])[1..];
      assert Shown(p[1..]) == "" + "/" + tail;
      PiecesFirst("", tail);
      assert Pieces(tail) == (["."] + Pieces(tail))[1..] == p[1..];
      PiecesFirst(p[0], tail);
      PiecesFirst("", p[0] + "/" + tail);
      assert Shown(p) == "" + "/" + (p[0] + "/" + tail);
      assert p == [p[0]] + p[1..];
    } else {
      assert Shown(p) == "" + "/" + "";
    }
  }

  /** The path that the check returns is accepted again as itself. */
  lemma AcceptedAgain(fs: FileSystem, here: Path, raw: string, cwd: string, other: string, roots: seq<string>)
    requires Judge(fs, here, raw, cwd, roots).Accepted?
    ensures var v := Judge(fs, here, raw, cwd, roots); Judge(fs, here, Shown(v.path), other, roots) == v
  {
    hide Canonicalize, Inside, Normalize, Http.Trim, Shown, Pieces;
    var path := Judge(fs, here, raw, cwd, roots).path;
    NormalizePlain([], Joined(raw, cwd).value);
    ShownReads(path);
    NotBlank(Shown(path));
    ShownIsNormal(path);
  }

  lemma ShownIsNormal(p: Path)
    requires AllPlain(p)
    ensures Normalize([], ["."] + if p == [] then ["."] else p) == p
  {
    hide Normalize;
    ShortDots([], "x");
    NormalizeInParts([], ["."], if p == [] then ["."] else p);
    PlainIsNormal([], p);
  }

  method ResolveDots(parts: seq<string>) returns (lexical: Path)
    ensures lexical == Normalize([], parts)
  {
    lexical := [];
    for i := 0 to |parts|
      invariant Normalize(lexical, parts[i..]) == Normalize([], parts)
    {
      assert parts[i..][1..] == parts[i + 1..];
      if parts[i] == ".." {
        lexical := Parent(lexical);
      } else if parts[i] != "." {
        lexical := lexical + [parts[i]];
      }
    }
  }

  method FindExisting(fs: FileSystem, lexical: Path) returns (at: Option<Path>)
    ensures at == Search(fs, lexical, [])
  {
    hide Lstat, Walk;
    var existing, missing: Path := lexical, [];
    var canonical := Canonicalize(fs, existing);
    while !canonical.Found?
      invariant canonical == Canonicalize(fs, existing)
      invariant Search(fs, existing, missing) == Search(fs, lexical, [])
      decreases |existing|
    {
      if Lstat(fs, existing) != NotFound || existing == [] {
        return None;
      }
      missing := [existing[|existing| - 1]] + missing;
      existing := Parent(existing);
      canonical := Canonicalize(fs, existing);
    }
    return Some(canonical.at + missing);
  }

  method UnderRoot(fs: FileSystem, here: Path, roots: seq<string>, at: Path) returns (inside: bool)
    ensures inside == Inside(fs, here, roots, at)
  {
    hide RootPath;
    inside := false;
    for i := 0 to |roots|
      invariant inside == Inside(fs, here, roots[..i], at)
    {
      var root := RootPath(fs, here, roots[i]);
      assert roots[..i + 1] == roots[..i] + [roots[i]];
      inside := inside || (root.Some? && root.value <= at);
    }
    assert roots[..|roots|] == roots;
  }

  method ResolvePath(fs: FileSystem, here: Path, raw: string, cwd: string, roots: seq<string>) returns (r: Verdict)
    ensures r == Judge(fs, here, raw, cwd, roots)
    ensures r == EmptyPath <==> AllWhite(raw)
    ensures forall path :: r == Accepted(path) <==>
      && !AllWhite(raw) && (IsAbsolute(raw) || IsAbsolute(cwd))
      && path == Normalize([], Pieces(Whole(raw, cwd))) && Lands(fs, here, path, roots)
  {
    JudgeMeaning(fs, here, raw, cwd, roots);
    hide Search, Canonicalize, Inside, Normalize, Http.Trim, AllWhite, Lands, Pieces;
    if Http.Trim(raw) == "" {
      return EmptyPath;
    }
    var joined := Joined(raw, cwd);
    if joined.None? {
      return NoWorkspace;
    }
    var lexical := ResolveDots(joined.value);
    NormalizePlain([], joined.value);
    SearchIsWalk(fs, lexical, []);
    var at := FindExisting(fs, lexical);
    if at.None? {
      return Unresolved;
    }
    assert Location(Canonicalize(fs, lexical)).value + [] == Location(Canonicalize(fs, lexical)).value;
    var inside := UnderRoot(fs, here, roots, at.value);
    return if inside then Accepted(lexical) else Outside;
  }

  /**
   Confinement: an accepted path has no `.` or `..`; the place it leads to, existing or to
   be created, lies under the canonical form of a root; and that place is reached through
   real directories, not links.
   */
  lemma AcceptedIsInside(fs: FileSystem, here: Path, raw: string, cwd: string,
    roots: seq<string>) returns (root: Path, at: Path)
    requires Judge(fs, here, raw, cwd, roots).Accepted?
    ensures var path := Judge(fs, here, raw, cwd, roots).path;
      var r := Canonicalize(fs, path);
      && AllPlain(path)
      && Location(r) == Some(at) && root <= at
      && (exists i :: 0 <= i < |roots| && RootPath(fs, here, roots[i]) == Some(root))
      && (r.Found? ==> Physical(fs, at))
      && (r.Missing? ==> Physical(fs, r.dir) && at == r.dir + r.rest && r.rest != [] && r.dir + [r.rest[0]] !in fs)
  {
    var path := Judge(fs, here, raw, cwd, roots).path;
    NormalizePlain([], Joined(raw, cwd).value);
    at := Location(Canonicalize(fs, path)).value;
    assert Inside(fs, here, roots, at);
    var i :| 0 <= i < |roots| && RootPath(fs, here, roots[i]).Some? && RootPath(fs, here, roots[i]).value <= at;
    root := RootPath(fs, here, roots[i]).value;
    assert Physical(fs, []) by { RootIsPhysical(fs); }
    WalkIsPhysical(fs, [], [], path, MAX_LINKS);
  }
}
