/** An abstract filesystem: files holding bytes, a set of directories, and a
    set of paths at which the operating system refuses to create anything
    (permissions, a full disk and similar causes, which are not told apart).
    `FsState` is its value; `FileSystem` is the mutable object the gateway
    and the detector act on, one call per `fs`/`cv2` primitive they use. */
module FileStore {
  import opened Common

  type Path = string

  datatype FsState = FsState(files: map<Path, Bytes>, dirs: set<Path>, denied: set<Path>)

  /** `fs.existsSync(p)`: a file or a directory is there. */
  predicate Present(s: FsState, p: Path)
  {
    p in s.files || p in s.dirs
  }

  /** The result of one primitive: whether it succeeded (a thrown error in
      Node) and the state afterwards. A failed primitive changes nothing. */
  datatype Step = Step(ok: bool, after: FsState)

  /** `fs.mkdirSync(p)`. */
  function Mkdir(s: FsState, p: Path): (r: Step)
    ensures !r.ok ==> r.after == s
  {
    if !Present(s, p) && p !in s.denied then Step(true, s.(dirs := s.dirs + {p}))
    else Step(false, s)
  }

  /** Whether a file may be created or replaced at `p` inside directory
      `dir`: the directory exists, `p` is not itself a directory, and the
      system does not refuse it. */
  predicate Writable(s: FsState, dir: Path, p: Path)
  {
    dir in s.dirs && p !in s.dirs && p !in s.denied
  }

  /** `fs.writeFileSync(p, data)` (and `cv2.imwrite`, which reports the same
      failures by returning false). */
  function Write(s: FsState, dir: Path, p: Path, data: Bytes): (r: Step)
    ensures !r.ok ==> r.after == s
  {
    if Writable(s, dir, p) then Step(true, s.(files := s.files[p := data])) else Step(false, s)
  }

  /** `fs.copyFileSync(src, dst)`: the source must be a file. */
  function Copy(s: FsState, src: Path, dir: Path, dst: Path): (r: Step)
    ensures !r.ok ==> r.after == s
  {
    if src in s.files && Writable(s, dir, dst) then Step(true, s.(files := s.files[dst := s.files[src]]))
    else Step(false, s)
  }

  /** `b` has the files of `a`, with the same contents, except possibly a
      new or replaced file at `t`. */
  predicate SameFilesExcept(a: map<Path, Bytes>, b: map<Path, Bytes>, t: Path)
  {
    && a.Keys <= b.Keys <= a.Keys + {t}
    && forall p :: p in a && p != t ==> b[p] == a[p]
  }

  lemma UpdateIsSameExcept(a: map<Path, Bytes>, t: Path, v: Bytes)
    ensures SameFilesExcept(a, a, t)
    ensures SameFilesExcept(a, a[t := v], t)
  {
  }

  /** No path is both a file and a directory. */
  predicate WellFormed(s: FsState)
  {
    s.files.Keys !! s.dirs
  }

  lemma PrimitivesKeepWellFormed(s: FsState, src: Path, dir: Path, p: Path, data: Bytes)
    requires WellFormed(s)
    ensures WellFormed(Mkdir(s, p).after)
    ensures WellFormed(Write(s, dir, p, data).after)
    ensures WellFormed(Copy(s, src, dir, p).after)
  {
  }

  class FileSystem {
    var files: map<Path, Bytes>
    var dirs: set<Path>
    const denied: set<Path>

    function State(): FsState
      reads this
    {
      FsState(files, dirs, denied)
    }

    constructor (initial: FsState)
      ensures State() == initial
    {
      files, dirs, denied := initial.files, initial.dirs, initial.denied;
    }

    predicate Exists(p: Path)
      reads this
    {
      Present(State(), p)
    }

    method MakeDirectory(p: Path) returns (ok: bool)
      modifies this
      ensures Step(ok, State()) == Mkdir(old(State()), p)
      ensures WellFormed(old(State())) ==> WellFormed(State())
    {
      ok := !Exists(p) && p !in denied;
      if ok {
        dirs := dirs + {p};
      }
    }

    method WriteFile(dir: Path, p: Path, data: Bytes) returns (ok: bool)
      modifies this
      ensures Step(ok, State()) == Write(old(State()), dir, p, data)
      ensures WellFormed(old(State())) ==> WellFormed(State())
    {
      ok := Writable(State(), dir, p);
      if ok {
        files := files[p := data];
      }
    }

    method CopyFile(src: Path, dir: Path, dst: Path) returns (ok: bool)
      modifies this
      ensures Step(ok, State()) == Copy(old(State()), src, dir, dst)
      ensures WellFormed(old(State())) ==> WellFormed(State())
    {
      ok := src in files && Writable(State(), dir, dst);
      if ok {
        files := files[dst := files[src]];
      }
    }
  }
}
