/** The part of the file system the scripts touch: a store of files and
    directories addressed by paths of name components, a current directory,
    and the calls the scripts make on it (`os.path.exists`, `shutil.copytree`,
    `os.chdir`, `os.mkdir`, and `open` for reading, writing and appending).
    Each call is a function from the store before to the store after, or
    `None` where Python raises. */
module Files {
  import opened Text

  /** A path from the directory the script is started in, one name per component. */
  type Path = seq<string>

  datatype Store = Store(files: map<Path, string>, dirs: set<Path>, cwd: Path)

  /** A name relative to the current directory. */
  function Here(s: Store, name: string): Path {
    s.cwd + [name]
  }

  /** `os.path.exists`: a file or a directory is there. */
  predicate Present(s: Store, p: Path) {
    p in s.files || p in s.dirs
  }

  /** The parent directory; the root is its own parent. */
  function Up(p: Path): Path {
    if p == [] then [] else p[..|p| - 1]
  }

  /** What a file holds, or nothing when it does not exist (an append creates it). */
  function Contents(s: Store, p: Path): string {
    if p in s.files then s.files[p] else ""
  }

  /** Every directory's parent is a directory, every file lies in a directory,
      no path is both a file and a directory, and the current directory exists. */
  predicate Valid(s: Store) {
    && s.cwd in s.dirs
    && (forall p :: p in s.files ==> p !in s.dirs)
    && (forall p {:trigger Up(p)} :: p in s.dirs && p != [] ==> Up(p) in s.dirs)
    && (forall p :: p in s.files ==> p != [] && Up(p) in s.dirs)
  }

  /** Nothing exists below a path that does not exist. */
  lemma {:induction false} NothingBelow(s: Store, r: Path, p: Path)
    requires Valid(s) && !Present(s, r) && r <= p
    ensures !Present(s, p)
    decreases |p|
  {
    if p != r && Present(s, p) {
      assert r <= Up(p);
      NothingBelow(s, r, Up(p));
    }
  }

  // ---------------------------------------------------------------------------
  // The calls

  /** Names that never denote an entry of their own: the empty name, which no
      call accepts, and the current and parent directory. */
  predicate Special(name: string) {
    name == "" || name == "." || name == ".."
  }

  /** `os.path.exists(name)`: `.` and `..` always exist, the empty name never does. */
  predicate NameExists(s: Store, name: string) {
    name == "." || name == ".." || (name != "" && Present(s, Here(s, name)))
  }

  /** `os.chdir(name)`: `.` stays, `..` goes to the parent, any other name must
      be a directory here. */
  function AfterChdir(s: Store, name: string): Option<Store> {
    if name == "." then Some(s)
    else if name == ".." then Some(s.(cwd := Up(s.cwd)))
    else if name != "" && Here(s, name) in s.dirs then Some(s.(cwd := Here(s, name)))
    else None
  }

  /** `os.mkdir(name)`: raises when anything of that name is there already. */
  function AfterMkdir(s: Store, name: string): Option<Store> {
    if Special(name) || Present(s, Here(s, name)) then None
    else Some(s.(dirs := s.dirs + {Here(s, name)}))
  }

  /** What text-mode reading makes of a file's stored text: universal newlines
      turn `\r\n` and a lone `\r` into `\n`. */
  function ReadText(raw: string): (r: string)
    ensures '\r' !in r
    ensures '\r' !in raw ==> r == raw
    ensures |r| <= |raw|
  {
    if raw == [] then []
    else if raw[0] == '\r' && |raw| > 1 && raw[1] == '\n' then "\n" + ReadText(raw[2..])
    else if raw[0] == '\r' then "\n" + ReadText(raw[1..])
    else [raw[0]] + ReadText(raw[1..])
  }

  /** Reading text already read changes nothing. */
  lemma ReadTextIdempotent(raw: string)
    ensures ReadText(ReadText(raw)) == ReadText(raw)
  {
  }

  /** Text without `\r` reads as it is, whatever follows it. */
  lemma {:induction false} ReadTextPlain(a: string, b: string)
    requires '\r' !in a
    ensures ReadText(a + b) == a + ReadText(b)
    decreases |a|
  {
    if a == [] {
      assert a + b == b;
    } else {
      assert a[0] in a;
      assert (a + b)[0] == a[0] && (a + b)[1..] == a[1..] + b;
      assert ReadText(a + b) == [a[0]] + ReadText(a[1..] + b);
      assert forall c :: c in a[1..] ==> c in a;
      ReadTextPlain(a[1..], b);
      assert [a[0]] + (a[1..] + ReadText(b)) == a + ReadText(b);
    }
  }

  /** The text of lines written with Windows line breaks. */
  function CrlfText(lines: seq<string>): string {
    if lines == [] then [] else lines[0] + "\r\n" + CrlfText(lines[1..])
  }

  /** A file written with Windows line breaks reads as the same lines with `\n`. */
  lemma {:induction false} ReadCrlf(lines: seq<string>)
    requires forall k :: 0 <= k < |lines| ==> '\r' !in lines[k]
    ensures ReadText(CrlfText(lines)) == Unlines(lines)
  {
    if lines != [] {
      var rest := CrlfText(lines[1..]);
      assert lines[0] + "\r\n" + rest == lines[0] + ("\r\n" + rest);
      ReadTextPlain(lines[0], "\r\n" + rest);
      assert ("\r\n" + rest)[2..] == rest;
      ReadCrlf(lines[1..]);
      assert lines[0] + ("\n" + Unlines(lines[1..])) == lines[0] + "\n" + Unlines(lines[1..]);
    }
  }

  /** `open(name, 'r').read()`: the stored text, as text-mode reading returns it. */
  function FileAt(s: Store, name: string): Option<string> {
    if !Special(name) && Here(s, name) in s.files then Some(ReadText(s.files[Here(s, name)])) else None
  }

  /** `open(name, 'w').write(text)`: the file is created or truncated. */
  function AfterWrite(s: Store, name: string, text: string): Option<Store> {
    if Special(name) || Here(s, name) in s.dirs then None
    else Some(s.(files := s.files[Here(s, name) := text]))
  }

  /** `open(name, 'a').write(text)`: the text goes after what the file holds. */
  function AfterAppend(s: Store, name: string, text: string): Option<Store> {
    var p := Here(s, name);
    if Special(name) || p in s.dirs then None
    else Some(s.(files := s.files[p := Contents(s, p) + text]))
  }

  /** `shutil.copytree(src, dst)`: the source must be a directory and the
      destination must not exist; everything below the source appears below
      the destination. */
  function AfterCopyTree(s: Store, src: string, dst: string): Option<Store> {
    var from := Here(s, src);
    var to := Here(s, dst);
    if Special(src) || Special(dst) || from !in s.dirs || Present(s, to) then None
    else Some(s.(files := s.files + Moved(s.files, from, to), dirs := s.dirs + MovedDirs(s.dirs, from, to)))
  }

  /** Paths below `from` are told apart by where they land below `to`. */
  lemma Rebased(from: Path, to: Path)
    ensures forall p1: Path, p2: Path :: from <= p1 && from <= p2 && to + p1[|from|..] == to + p2[|from|..] ==> p1 == p2
  {
    forall p1: Path, p2: Path | from <= p1 && from <= p2 && to + p1[|from|..] == to + p2[|from|..]
      ensures p1 == p2
    {
      assert (to + p1[|from|..])[|to|..] == p1[|from|..];
      assert (to + p2[|from|..])[|to|..] == p2[|from|..];
      assert from + p1[|from|..] == p1;
      assert from + p2[|from|..] == p2;
    }
  }

  /** The files below `from`, moved below `to`. */
  function Moved(files: map<Path, string>, from: Path, to: Path): map<Path, string> {
    Rebased(from, to);
    map p | p in files && from <= p :: to + p[|from|..] := files[p]
  }

  /** The directories below `from` (and `from` itself), moved below `to`. */
  function MovedDirs(dirs: set<Path>, from: Path, to: Path): set<Path> {
    set p | p in dirs && from <= p :: to + p[|from|..]
  }

  /** A path below the destination of a copy holds what the same path below the source held. */
  lemma MovedAt(files: map<Path, string>, from: Path, to: Path, q: Path)
    ensures to + q in Moved(files, from, to) <==> from + q in files
    ensures from + q in files ==> Moved(files, from, to)[to + q] == files[from + q]
  {
    var p := from + q;
    assert p[|from|..] == q;
    Rebased(from, to);
    if to + q in Moved(files, from, to) {
      var p' :| p' in files && from <= p' && to + p'[|from|..] == to + q;
      assert (to + p'[|from|..])[|to|..] == q;
      assert p' == from + p'[|from|..];
    }
  }

  /** A directory below the destination of a copy is one below the source. */
  lemma MovedDirAt(dirs: set<Path>, from: Path, to: Path, q: Path)
    ensures to + q in MovedDirs(dirs, from, to) <==> from + q in dirs
  {
    var p := from + q;
    assert p[|from|..] == q;
    if to + q in MovedDirs(dirs, from, to) {
      var p' :| p' in dirs && from <= p' && to + p'[|from|..] == to + q;
      assert (to + p'[|from|..])[|to|..] == q;
      assert p' == from + p'[|from|..];
    }
  }

  /** Everything a copy adds lies below its destination. */
  lemma MovedBelow(s: Store, from: Path, to: Path, p: Path)
    requires p in Moved(s.files, from, to) || p in MovedDirs(s.dirs, from, to)
    ensures to <= p
  {
  }

  // ---------------------------------------------------------------------------
  // Module resolution: where a relative `require` or path string leads

  /** One component of a relative path. */
  function Step(dir: Path, part: string): Path {
    if part == "." then dir else if part == ".." then Up(dir) else dir + [part]
  }

  function Walk(dir: Path, parts: seq<string>): Path
    decreases |parts|
  {
    if parts == [] then dir else Walk(Step(dir, parts[0]), parts[1..])
  }

  /** The `.js` file a relative `require(target)` in `dir` loads. */
  function Resolve(dir: Path, target: string): Path {
    Walk(dir, SplitOn(target + ".js", '/'))
  }

  // ---------------------------------------------------------------------------
  // The store as the scripts see it: one object whose calls update it in place

  /** The call succeeded exactly when `r` is a store, and the store is then `r`;
      a call that raises leaves everything as it was. */
  predicate Stepped(ok: bool, r: Option<Store>, before: Store, after: Store) {
    ok == r.Some? && after == (if ok then r.value else before)
  }

  class Workspace {
    var files: map<Path, string>
    var dirs: set<Path>
    var cwd: Path

    constructor (start: Store)
      ensures State() == start
    {
      files, dirs, cwd := start.files, start.dirs, start.cwd;
    }

    function State(): Store
      reads this
    {
      Store(files, dirs, cwd)
    }

    method Exists(name: string) returns (b: bool)
      ensures b == NameExists(State(), name)
    {
      b := NameExists(State(), name);
    }

    method Commit(r: Option<Store>) returns (ok: bool)
      modifies this
      ensures Stepped(ok, r, old(State()), State())
    {
      ok := r.Some?;
      if ok {
        files, dirs, cwd := r.value.files, r.value.dirs, r.value.cwd;
      }
    }

    method CopyTree(src: string, dst: string) returns (ok: bool)
      modifies this
      ensures Stepped(ok, AfterCopyTree(old(State()), src, dst), old(State()), State())
    {
      ok := Commit(AfterCopyTree(State(), src, dst));
    }

    method Chdir(name: string) returns (ok: bool)
      modifies this
      ensures Stepped(ok, AfterChdir(old(State()), name), old(State()), State())
    {
      ok := Commit(AfterChdir(State(), name));
    }

    method Mkdir(name: string) returns (ok: bool)
      modifies this
      ensures Stepped(ok, AfterMkdir(old(State()), name), old(State()), State())
    {
      ok := Commit(AfterMkdir(State(), name));
    }

    method Read(name: string) returns (text: Option<string>)
      ensures text == FileAt(State(), name)
    {
      text := FileAt(State(), name);
    }

    method Write(name: string, text: string) returns (ok: bool)
      modifies this
      ensures Stepped(ok, AfterWrite(old(State()), name, text), old(State()), State())
    {
      ok := Commit(AfterWrite(State(), name, text));
    }

    method Append(name: string, text: string) returns (ok: bool)
      modifies this
      ensures Stepped(ok, AfterAppend(old(State()), name, text), old(State()), State())
    {
      ok := Commit(AfterAppend(State(), name, text));
    }
  }
}
