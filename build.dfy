/** `create_structure` (thales/build.py): the recursive walk that lays out
    the package's IO directory. Dict keys become directories holding their
    values, strings become directories or empty YAML files, lists are walked
    item by item under the same directory, and nothing that already exists
    is made again. The file system is a set of directory paths and a set of
    file paths; a path is its list of components below the root. */
module Build {
  import opened Common

  type Path = seq<string>

  /** The values `create_structure` walks; anything that is not a dict, a
      string or a list is ignored. */
  datatype Structure = Dict(entries: seq<Entry>) | Str(name: string) | List(items: seq<Structure>) | Other

  /** One `key: value` item of a dict, in insertion order. */
  datatype Entry = Entry(key: string, value: Structure)

  /** The directories and files present (the root always is). */
  datatype Fs = Fs(dirs: set<Path>, files: set<Path>)

  /** `os.path.exists(p)` */
  predicate Exists(fs: Fs, p: Path) {
    p == [] || p in fs.dirs || p in fs.files
  }

  predicate IsDir(fs: Fs, p: Path) {
    p == [] || p in fs.dirs
  }

  /** Nothing present in `a` is missing from `b`. */
  predicate Grows(a: Fs, b: Fs) {
    a.dirs <= b.dirs && a.files <= b.files
  }

  /** `os.mkdir(p)`: the parent must be a directory and `p` must be new. */
  function Mkdir(fs: Fs, p: Path): (r: (Fs, Outcome))
    ensures Grows(fs, r.0)
  {
    if Exists(fs, p) then (fs, Fail(FileExistsError))
    else if IsDir(fs, p[..|p| - 1]) then (fs.(dirs := fs.dirs + {p}), Pass)
    else if p[..|p| - 1] in fs.files then (fs, Fail(NotADirectoryError))
    else (fs, Fail(FileNotFoundError))
  }

  /** `Path(p).touch()`: an existing path is left as it is; a new one needs
      a directory as its parent. */
  function Touch(fs: Fs, p: Path): (r: (Fs, Outcome))
    ensures Grows(fs, r.0)
  {
    if Exists(fs, p) then (fs, Pass)
    else if IsDir(fs, p[..|p| - 1]) then (fs.(files := fs.files + {p}), Pass)
    else if p[..|p| - 1] in fs.files then (fs, Fail(NotADirectoryError))
    else (fs, Fail(FileNotFoundError))
  }

  /** `if not os.path.exists(p): os.mkdir(p)` */
  function Ensure(fs: Fs, p: Path): (r: (Fs, Outcome))
    ensures Grows(fs, r.0)
  {
    if Exists(fs, p) then (fs, Pass) else Mkdir(fs, p)
  }

  /** `("." in s) and (not s.startswith("."))` */
  predicate IsFileName(s: string) {
    '.' in s && !StartsWith(s, ".")
  }

  /** `s.split(".")[-1]` */
  function FileType(s: string): string {
    LastPiece(s, '.')
  }

  // ---------------------------------------------------------------------------
  // The walk

  /** `create_structure(structure, base_dir)`: the file system afterwards
      and whether it raised. */
  function Create(st: Structure, base: Path, fs: Fs): (r: (Fs, Outcome))
    ensures Grows(fs, r.0)
    decreases st
  {
    match st
    case Dict(es) => CreateEntries(es, base, fs)
    case Str(s) =>
      if IsFileName(s) then
        if FileType(s) == "yaml" then
          if Exists(fs, base + [s]) then (fs, Pass) else Touch(fs, base + [s])
        else (fs, Fail(NotImplementedError))
      else Ensure(fs, base + [s])
    case List(xs) => CreateItems(xs, base, fs)
    case Other => (fs, Pass)
  }

  /** The dict loop over its items, stopping at the first exception. */
  function CreateEntries(es: seq<Entry>, base: Path, fs: Fs): (r: (Fs, Outcome))
    ensures Grows(fs, r.0)
    decreases es
  {
    if es == [] then (fs, Pass)
    else EntryStep(CreateEntries(es[..|es| - 1], base, fs), es[|es| - 1], base, fs)
  }

  /** One dict item: make `base/key` if missing, then walk the value there. */
  function EntryStep(prev: (Fs, Outcome), e: Entry, base: Path, ghost fs: Fs): (r: (Fs, Outcome))
    requires Grows(fs, prev.0)
    ensures Grows(prev.0, r.0)
    ensures Grows(fs, r.0)
    decreases e
  {
    if prev.1.Fail? then prev
    else
      var made := Ensure(prev.0, base + [e.key]);
      if made.1.Fail? then made else Create(e.value, base + [e.key], made.0)
  }

  /** The list loop, every item under the same directory. */
  function CreateItems(xs: seq<Structure>, base: Path, fs: Fs): (r: (Fs, Outcome))
    ensures Grows(fs, r.0)
    decreases xs
  {
    if xs == [] then (fs, Pass)
    else
      var prev := CreateItems(xs[..|xs| - 1], base, fs);
      if prev.1.Fail? then prev else Create(xs[|xs| - 1], base, prev.0)
  }

  lemma CreateEntriesStep(es: seq<Entry>, i: nat, base: Path, fs: Fs)
    requires i < |es|
    ensures CreateEntries(es[..i + 1], base, fs) == EntryStep(CreateEntries(es[..i], base, fs), es[i], base, fs)
  {
    assert es[..i + 1][..i] == es[..i];
  }

  lemma CreateItemsStep(xs: seq<Structure>, i: nat, base: Path, fs: Fs)
    requires i < |xs|
    ensures var prev := CreateItems(xs[..i], base, fs);
      CreateItems(xs[..i + 1], base, fs) == if prev.1.Fail? then prev else Create(xs[i], base, prev.0)
  {
    assert xs[..i + 1][..i] == xs[..i];
  }

  /** The dict loop stops at the first exception. */
  lemma {:induction false} CreateEntriesStops(es: seq<Entry>, k: nat, base: Path, fs: Fs)
    requires k <= |es| && CreateEntries(es[..k], base, fs).1.Fail?
    ensures CreateEntries(es, base, fs) == CreateEntries(es[..k], base, fs)
    decreases |es| - k
  {
    if k < |es| {
      CreateEntriesStep(es, k, base, fs);
      CreateEntriesStops(es, k + 1, base, fs);
    } else {
      assert es[..k] == es;
    }
  }

  /** The list loop stops at the first exception. */
  lemma {:induction false} CreateItemsStops(xs: seq<Structure>, k: nat, base: Path, fs: Fs)
    requires k <= |xs| && CreateItems(xs[..k], base, fs).1.Fail?
    ensures CreateItems(xs, base, fs) == CreateItems(xs[..k], base, fs)
    decreases |xs| - k
  {
    if k < |xs| {
      CreateItemsStep(xs, k, base, fs);
      CreateItemsStops(xs, k + 1, base, fs);
    } else {
      assert xs[..k] == xs;
    }
  }

  // ---------------------------------------------------------------------------
  // Built: what a finished walk leaves behind

  /** Every path the structure names exists, and it names no file other
      than YAML. */
  ghost predicate Built(st: Structure, base: Path, fs: Fs)
    decreases st
  {
    match st
    case Dict(es) => BuiltEntries(es, base, fs)
    case Str(s) =>
      if IsFileName(s) then FileType(s) == "yaml" && Exists(fs, base + [s]) else Exists(fs, base + [s])
    case List(xs) => BuiltItems(xs, base, fs)
    case Other => true
  }

  ghost predicate BuiltEntries(es: seq<Entry>, base: Path, fs: Fs)
    decreases es
  {
    es == [] || (BuiltEntries(es[..|es| - 1], base, fs) && BuiltEntry(es[|es| - 1], base, fs))
  }

  ghost predicate BuiltEntry(e: Entry, base: Path, fs: Fs)
    decreases e
  {
    Exists(fs, base + [e.key]) && Built(e.value, base + [e.key], fs)
  }

  ghost predicate BuiltItems(xs: seq<Structure>, base: Path, fs: Fs)
    decreases xs
  {
    xs == [] || (BuiltItems(xs[..|xs| - 1], base, fs) && Built(xs[|xs| - 1], base, fs))
  }

  /** What is built stays built. */
  lemma {:induction false} BuiltGrows(st: Structure, base: Path, a: Fs, b: Fs)
    requires Built(st, base, a) && Grows(a, b)
    ensures Built(st, base, b)
    decreases st
  {
    match st
    case Dict(es) => BuiltEntriesGrows(es, base, a, b);
    case Str(s) =>
    case List(xs) => BuiltItemsGrows(xs, base, a, b);
    case Other =>
  }

  lemma {:induction false} BuiltEntriesGrows(es: seq<Entry>, base: Path, a: Fs, b: Fs)
    requires BuiltEntries(es, base, a) && Grows(a, b)
    ensures BuiltEntries(es, base, b)
    decreases es
  {
    if es != [] {
      BuiltEntriesGrows(es[..|es| - 1], base, a, b);
      BuiltGrows(es[|es| - 1].value, base + [es[|es| - 1].key], a, b);
    }
  }

  lemma {:induction false} BuiltItemsGrows(xs: seq<Structure>, base: Path, a: Fs, b: Fs)
    requires BuiltItems(xs, base, a) && Grows(a, b)
    ensures BuiltItems(xs, base, b)
    decreases xs
  {
    if xs != [] {
      BuiltItemsGrows(xs[..|xs| - 1], base, a, b);
      BuiltGrows(xs[|xs| - 1], base, a, b);
    }
  }

  /** A walk that raises nothing leaves its structure built. */
  lemma {:induction false} CreateBuilds(st: Structure, base: Path, fs: Fs)
    requires Create(st, base, fs).1.Pass?
    ensures Built(st, base, Create(st, base, fs).0)
    decreases st
  {
    match st
    case Dict(es) => CreateEntriesBuilds(es, base, fs);
    case Str(s) =>
    case List(xs) => CreateItemsBuilds(xs, base, fs);
    case Other =>
  }

  lemma {:induction false} CreateEntriesBuilds(es: seq<Entry>, base: Path, fs: Fs)
    requires CreateEntries(es, base, fs).1.Pass?
    ensures BuiltEntries(es, base, CreateEntries(es, base, fs).0)
    decreases es
  {
    if es != [] {
      var init, e := es[..|es| - 1], es[|es| - 1];
      var prev := CreateEntries(init, base, fs);
      var r := EntryStep(prev, e, base, fs);
      CreateEntriesBuilds(init, base, fs);
      BuiltEntriesGrows(init, base, prev.0, r.0);
      var made := Ensure(prev.0, base + [e.key]);
      CreateBuilds(e.value, base + [e.key], made.0);
    }
  }

  lemma {:induction false} CreateItemsBuilds(xs: seq<Structure>, base: Path, fs: Fs)
    requires CreateItems(xs, base, fs).1.Pass?
    ensures BuiltItems(xs, base, CreateItems(xs, base, fs).0)
    decreases xs
  {
    if xs != [] {
      var init := xs[..|xs| - 1];
      var prev := CreateItems(init, base, fs);
      CreateItemsBuilds(init, base, fs);
      CreateBuilds(xs[|xs| - 1], base, prev.0);
      BuiltItemsGrows(init, base, prev.0, CreateItems(xs, base, fs).0);
    }
  }

  /** Walking a built structure changes nothing and raises nothing. */
  lemma {:induction false} CreateOnBuilt(st: Structure, base: Path, fs: Fs)
    requires Built(st, base, fs)
    ensures Create(st, base, fs) == (fs, Pass)
    decreases st
  {
    match st
    case Dict(es) => CreateEntriesOnBuilt(es, base, fs);
    case Str(s) =>
    case List(xs) => CreateItemsOnBuilt(xs, base, fs);
    case Other =>
  }

  lemma {:induction false} CreateEntriesOnBuilt(es: seq<Entry>, base: Path, fs: Fs)
    requires BuiltEntries(es, base, fs)
    ensures CreateEntries(es, base, fs) == (fs, Pass)
    decreases es
  {
    if es != [] {
      var e := es[|es| - 1];
      CreateEntriesOnBuilt(es[..|es| - 1], base, fs);
      CreateOnBuilt(e.value, base + [e.key], fs);
    }
  }

  lemma {:induction false} CreateItemsOnBuilt(xs: seq<Structure>, base: Path, fs: Fs)
    requires BuiltItems(xs, base, fs)
    ensures CreateItems(xs, base, fs) == (fs, Pass)
    decreases xs
  {
    if xs != [] {
      CreateItemsOnBuilt(xs[..|xs| - 1], base, fs);
      CreateOnBuilt(xs[|xs| - 1], base, fs);
    }
  }

  /** A second run of a walk that raised nothing changes nothing. */
  lemma CreateIdempotent(st: Structure, base: Path, fs: Fs)
    requires Create(st, base, fs).1.Pass?
    ensures Create(st, base, Create(st, base, fs).0) == (Create(st, base, fs).0, Pass)
  {
    CreateBuilds(st, base, fs);
    CreateOnBuilt(st, base, Create(st, base, fs).0);
  }

  /** A walk leaves the file system as it is, raising nothing, exactly when
      the structure is already built there. */
  lemma CreateFixpoint(st: Structure, base: Path, fs: Fs)
    ensures Create(st, base, fs) == (fs, Pass) <==> Built(st, base, fs)
  {
    if Create(st, base, fs) == (fs, Pass) {
      CreateBuilds(st, base, fs);
    }
    if Built(st, base, fs) {
      CreateOnBuilt(st, base, fs);
    }
  }

  // ---------------------------------------------------------------------------
  // Targets: what a walk may make

  function Union(a: Fs, b: Fs): Fs {
    Fs(a.dirs + b.dirs, a.files + b.files)
  }

  /** The directories and files a structure names under `base`: dict keys
      and plain names are directories, YAML names are files. */
  function Targets(st: Structure, base: Path): Fs
    decreases st
  {
    match st
    case Dict(es) => TargetsEntries(es, base)
    case Str(s) =>
      if IsFileName(s) then
        if FileType(s) == "yaml" then Fs({}, {base + [s]}) else Fs({}, {})
      else Fs({base + [s]}, {})
    case List(xs) => TargetsItems(xs, base)
    case Other => Fs({}, {})
  }

  function TargetsEntries(es: seq<Entry>, base: Path): Fs
    decreases es
  {
    if es == [] then Fs({}, {})
    else Union(TargetsEntries(es[..|es| - 1], base), TargetsEntry(es[|es| - 1], base))
  }

  function TargetsEntry(e: Entry, base: Path): Fs
    decreases e
  {
    Union(Fs({base + [e.key]}, {}), Targets(e.value, base + [e.key]))
  }

  function TargetsItems(xs: seq<Structure>, base: Path): Fs
    decreases xs
  {
    if xs == [] then Fs({}, {})
    else Union(TargetsItems(xs[..|xs| - 1], base), Targets(xs[|xs| - 1], base))
  }

  /** `r` adds to `fs` only directories and files among `t`. */
  predicate Within(fs: Fs, r: Fs, t: Fs) {
    r.dirs <= fs.dirs + t.dirs && r.files <= fs.files + t.files
  }

  /** A walk makes only the directories and files its structure names,
      each of its own kind. */
  lemma {:induction false} CreateWithin(st: Structure, base: Path, fs: Fs)
    ensures Within(fs, Create(st, base, fs).0, Targets(st, base))
    decreases st
  {
    match st
    case Dict(es) => CreateEntriesWithin(es, base, fs);
    case Str(s) =>
    case List(xs) => CreateItemsWithin(xs, base, fs);
    case Other =>
  }

  lemma {:induction false} CreateEntriesWithin(es: seq<Entry>, base: Path, fs: Fs)
    ensures Within(fs, CreateEntries(es, base, fs).0, TargetsEntries(es, base))
    decreases es
  {
    if es != [] {
      var init, e := es[..|es| - 1], es[|es| - 1];
      var prev := CreateEntries(init, base, fs);
      CreateEntriesWithin(init, base, fs);
      if prev.1.Pass? {
        var made := Ensure(prev.0, base + [e.key]);
        CreateWithin(e.value, base + [e.key], made.0);
      }
    }
  }

  lemma {:induction false} CreateItemsWithin(xs: seq<Structure>, base: Path, fs: Fs)
    ensures Within(fs, CreateItems(xs, base, fs).0, TargetsItems(xs, base))
    decreases xs
  {
    if xs != [] {
      var prev := CreateItems(xs[..|xs| - 1], base, fs);
      CreateItemsWithin(xs[..|xs| - 1], base, fs);
      if prev.1.Pass? {
        CreateWithin(xs[|xs| - 1], base, prev.0);
      }
    }
  }

  // ---------------------------------------------------------------------------
  // The package's IO layout

  /** `io_structure` */
  function IoStructure(): Structure {
    Dict([Entry(".thales_IO", List([
      Str("bot_data"),
      Str("credentials"),
      Str("fieldmaps"),
      Str("fx_pairs"),
      Str("logs"),
      Dict([Entry("notifications", List([Str("gmail.yaml"), Str("telegram.yaml")]))]),
      Dict([Entry("positions", List([Str("open"), Str("closed")]))]),
      Str("scraped_data"),
      Dict([Entry("stocks", List([Str("master.yaml")]))]),
      Str("temp"),
      Str("bots.yaml"),
      Str("sources.yaml")
    ]))])
  }

  /** The file system the walk acts on. */
  class FileSystem {
    var dirs: set<Path>
    var files: set<Path>

    function State(): Fs
      reads this
    {
      Fs(dirs, files)
    }

    constructor(fs: Fs)
      ensures State() == fs
    {
      dirs := fs.dirs;
      files := fs.files;
    }

    method MakeDir(p: Path) returns (o: Outcome)
      modifies this
      ensures (State(), o) == Mkdir(old(State()), p)
    {
      if Exists(State(), p) {
        return Fail(FileExistsError);
      }
      var parent := p[..|p| - 1];
      if IsDir(State(), parent) {
        dirs := dirs + {p};
        return Pass;
      }
      if parent in files {
        return Fail(NotADirectoryError);
      }
      o := Fail(FileNotFoundError);
    }

    method TouchFile(p: Path) returns (o: Outcome)
      modifies this
      ensures (State(), o) == Touch(old(State()), p)
    {
      if Exists(State(), p) {
        return Pass;
      }
      var parent := p[..|p| - 1];
      if IsDir(State(), parent) {
        files := files + {p};
        return Pass;
      }
      if parent in files {
        return Fail(NotADirectoryError);
      }
      o := Fail(FileNotFoundError);
    }

    /** `create_structure(structure, base_dir)` */
    method CreateStructure(st: Structure, base: Path) returns (o: Outcome)
      modifies this
      ensures (State(), o) == Create(st, base, old(State()))
      decreases st
    {
      match st {
        case Dict(es) =>
          o := Pass;
          for i := 0 to |es|
            invariant (State(), o) == CreateEntries(es[..i], base, old(State())) && o.Pass?
          {
            CreateEntriesStep(es, i, base, old(State()));
            var newDir := base + [es[i].key];
            if !Exists(State(), newDir) {
              o := MakeDir(newDir);
              if o.Fail? {
                CreateEntriesStops(es, i + 1, base, old(State()));
                return;
              }
            }
            o := CreateStructure(es[i].value, newDir);
            if o.Fail? {
              CreateEntriesStops(es, i + 1, base, old(State()));
              return;
            }
          }
          assert es[..|es|] == es;
        case Str(s) =>
          if IsFileName(s) {
            if FileType(s) == "yaml" {
              var fp := base + [s];
              o := Pass;
              if !Exists(State(), fp) {
                o := TouchFile(fp);
              }
            } else {
              o := Fail(NotImplementedError);
            }
          } else {
            var newDir := base + [s];
            o := Pass;
            if !Exists(State(), newDir) {
              o := MakeDir(newDir);
            }
          }
        case List(xs) =>
          o := Pass;
          for i := 0 to |xs|
            invariant (State(), o) == CreateItems(xs[..i], base, old(State())) && o.Pass?
          {
            CreateItemsStep(xs, i, base, old(State()));
            o := CreateStructure(xs[i], base);
            if o.Fail? {
              CreateItemsStops(xs, i + 1, base, old(State()));
              return;
            }
          }
          assert xs[..|xs|] == xs;
        case Other =>
          o := Pass;
      }
    }

    /** `create_structure(structure=io_structure, base_dir=io_dir)`, with the
        home directory as a parameter. */
    method BuildIo(home: Path) returns (o: Outcome)
      modifies this
      ensures (State(), o) == Create(IoStructure(), home, old(State()))
    {
      o := CreateStructure(IoStructure(), home);
    }
  }
}
