/** Fetching the `git` and `http` sections of a spec into the working directory (`git_data`,
    `http_data`). External commands are recorded, not run: whether each one exits with status 0
    is a parameter `exitsZero`. The working directory is modelled by its top-level entries, the
    text of `poncho/set_env`, and the log of commands run. */
module DataFetch {
  import opened Values

  /** What a top-level path of the working directory is. */
  datatype Kind = Directory | RegularFile

  /** The external commands the fetchers run. Paths are relative to the working directory. */
  datatype Command =
    | Clone(remote: string, target: string)              // git clone <remote> <dir>/<target>
    | Download(url: string, target: string)              // curl <url> --output <dir>/<target>
    | Extract(gzip: bool, archive: string, into: string) // tar -xzf|-xf <dir>/<archive> -C <dir>/<into>
    | Decompress(target: string)                         // gzip -d <dir>/<target>.gz

  /** The observable state of the working directory. */
  datatype World = World(fs: map<string, Kind>, setEnv: string, log: seq<Command>)

  /** The state reached, and the exception that stopped the run, if any. */
  datatype Outcome = Outcome(exc: Option<Exc>, world: World)

  /** What a command that exits with status 0 leaves at the top level of the directory: a clone
      makes its target a directory, a download makes its target a file, decompressing replaces
      `<target>.gz` by `<target>`, and extracting a tarball only fills a directory below the top
      level. Nothing else changes. */
  function Effect(fs: map<string, Kind>, c: Command): (r: map<string, Kind>)
    ensures c.Extract? ==> r == fs
    ensures !c.Extract? ==> c.target in r && r[c.target] == (if c.Clone? then Directory else RegularFile)
    ensures c.Decompress? ==> c.target + ".gz" !in r
    ensures forall n :: n in fs && !c.Extract? && n != c.target && (c.Decompress? ==> n != c.target + ".gz") ==>
      n in r && r[n] == fs[n]
  {
    match c
    case Clone(_, target) => fs[target := Directory]
    case Download(_, target) => fs[target := RegularFile]
    case Extract(_, _, _) => fs
    case Decompress(target) => (fs - {target + ".gz"})[target := RegularFile]
  }

  /** `subprocess.check_call`: the command is run; a non-zero exit raises CalledProcessError. */
  function RunOutcome(w: World, c: Command, exitsZero: Command -> bool): (o: Outcome)
    ensures o.world.log == w.log + [c] && o.world.setEnv == w.setEnv
    ensures o.exc.None? <==> exitsZero(c)
  {
    if exitsZero(c) then Outcome(None, World(Effect(w.fs, c), w.setEnv, w.log + [c]))
    else Outcome(Some(CalledProcessError), World(w.fs, w.setEnv, w.log + [c]))
  }

  /** The names that denote a path that always exists: `<dir>/` is the working directory itself,
      `<dir>/.` likewise, and `<dir>/..` its parent. */
  predicate AlwaysExists(name: string)
  {
    name == "" || name == "." || name == ".."
  }

  /** `os.mkdir(out_dir + '/' + name)`: fails on an existing path. */
  function MkdirOutcome(w: World, name: string): (o: Outcome)
    ensures o.exc.None? <==> name !in w.fs && !AlwaysExists(name)
    ensures o.exc.Some? ==> o == Outcome(Some(FileExistsError), w)
    ensures o.exc.None? ==> o.world.fs == w.fs[name := Directory]
    ensures o.world.setEnv == w.setEnv && o.world.log == w.log
  {
    if name in w.fs || AlwaysExists(name) then Outcome(Some(FileExistsError), w)
    else Outcome(None, World(w.fs[name := Directory], w.setEnv, w.log))
  }

  const PonchoDir := "poncho"

  /** The line recorded for a fetched entry: `export <name>=$1/<name>`. */
  function ExportLine(name: string): (r: string)
    ensures |r| == 2 * |name| + 12
    ensures r[..7] == "export " && r[7..7 + |name|] == name && r[|r| - 1] == '\n'
  {
    "export " + name + "=$1/" + name + "\n"
  }

  /** Lines 110-117 / 178-183: create `poncho` if nothing has that name, then append the entry's
      line to `poncho/set_env`. Opening the file fails when `poncho` is a regular file. */
  function ExportOutcome(w: World, name: string): (o: Outcome)
    ensures o.exc.Some? <==> PonchoDir in w.fs && w.fs[PonchoDir] == RegularFile
    ensures o.exc.None? ==> o.world == World(w.fs[PonchoDir := Directory], w.setEnv + ExportLine(name), w.log)
    ensures o.exc.Some? ==> o == Outcome(Some(NotADirectoryError), w)
  {
    if PonchoDir in w.fs && w.fs[PonchoDir] == RegularFile then Outcome(Some(NotADirectoryError), w)
    else Outcome(None, World(w.fs[PonchoDir := Directory], w.setEnv + ExportLine(name), w.log))
  }

  /** One step of a fetch. */
  datatype Step = Exec(cmd: Command) | MakeDir(name: string)

  function StepOutcome(w: World, s: Step, exitsZero: Command -> bool): Outcome
  {
    match s
    case Exec(c) => RunOutcome(w, c, exitsZero)
    case MakeDir(n) => MkdirOutcome(w, n)
  }

  /** The steps run in order, up to the first that raises. */
  function RunSteps(w: World, steps: seq<Step>, exitsZero: Command -> bool): Outcome
    decreases |steps|
  {
    if steps == [] then Outcome(None, w)
    else
      var o := StepOutcome(w, steps[0], exitsZero);
      if o.exc.Some? then o else RunSteps(o.world, steps[1..], exitsZero)
  }

  /** The four ways an http entry is fetched. */
  datatype Format = TarGz | Tar | Gz | Plain

  /** Lines 159-177: `type == 'tar'` and `compression == 'gzip'` choose the case, first match wins. */
  function FormatOf(fileType: Option<Json>, compression: Option<Json>): (f: Format)
    ensures f == TarGz <==> fileType == Some(Str("tar")) && compression == Some(Str("gzip"))
    ensures f == Tar <==> fileType == Some(Str("tar")) && compression != Some(Str("gzip"))
    ensures f == Gz <==> fileType != Some(Str("tar")) && compression == Some(Str("gzip"))
  {
    if fileType == Some(Str("tar")) && compression == Some(Str("gzip")) then TarGz
    else if fileType == Some(Str("tar")) then Tar
    else if compression == Some(Str("gzip")) then Gz
    else Plain
  }

  /** The file the url is downloaded to. */
  function DownloadTarget(name: string, f: Format): string
  {
    match f
    case TarGz => name + ".tar.gz"
    case Tar => name + ".tar"
    case Gz => name + ".gz"
    case Plain => name
  }

  /** Lines 159-177: download, then for a tarball make the directory and extract into it, for a
      gzip file decompress it in place. */
  function FetchSteps(name: string, url: string, f: Format): (r: seq<Step>)
    ensures 1 <= |r| && r[0] == Exec(Download(url, DownloadTarget(name, f)))
    ensures forall k :: 1 <= k < |r| ==> !r[k].Exec? || !r[k].cmd.Download?
  {
    match f
    case TarGz => [Exec(Download(url, name + ".tar.gz")), MakeDir(name), Exec(Extract(true, name + ".tar.gz", name))]
    case Tar => [Exec(Download(url, name + ".tar")), MakeDir(name), Exec(Extract(false, name + ".tar", name))]
    case Gz => [Exec(Download(url, name + ".gz")), Exec(Decompress(name))]
    case Plain => [Exec(Download(url, name))]
  }

  /** The two spec sections and the key that says where an entry comes from. */
  datatype Source = Git | Http

  function SourceKey(src: Source): string
  {
    match src
    case Git => "remote"
    case Http => "url"
  }

  function SectionKey(src: Source): string
  {
    match src
    case Git => "git"
    case Http => "http"
  }

  /** The fields an entry is read for (`x = None; if k in v: x = v[k]` for each). */
  datatype Request = Request(source: Option<Json>, fileType: Option<Json>, compression: Option<Json>)

  /** Lines 104-107 (`remote`, then `ref`) and 146-151 (`type`, `compression`, then `url`). The
      git `ref` is read, so it can raise, but its value is dropped. */
  function ReadEntry(src: Source, v: Json): (r: Result<Request>)
    ensures v.Obj? ==> r.Ok? && r.value.source == Lookup(v.fields, SourceKey(src))
  {
    match src
    case Git =>
      (match OptionalField(v, "remote")
       case Err(e) => Err(e)
       case Ok(remote) =>
         match OptionalField(v, "ref")
         case Err(e) => Err(e)
         case Ok(_) => Ok(Request(remote, None, None)))
    case Http =>
      match OptionalField(v, "type")
      case Err(e) => Err(e)
      case Ok(fileType) =>
        match OptionalField(v, "compression")
        case Err(e) => Err(e)
        case Ok(compression) =>
          match OptionalField(v, "url")
          case Err(e) => Err(e)
          case Ok(url) => Ok(Request(url, fileType, compression))
  }

  /** The steps that fetch one entry whose source is the string s. */
  function Plan(src: Source, name: string, s: string, req: Request): seq<Step>
  {
    match src
    case Git => [Exec(Clone(s, name))]
    case Http => FetchSteps(name, s, FormatOf(req.fileType, req.compression))
  }

  /** One entry of a section: nothing happens unless its source is set (truthy); a set source
      that is not a string is rejected by subprocess (TypeError); otherwise fetch, then export. */
  function EntryOutcome(src: Source, w: World, name: string, v: Json, exitsZero: Command -> bool): (o: Outcome)
    ensures o.exc.Some? ==> o.world.setEnv == w.setEnv
    ensures o.exc.None? ==> ReadEntry(src, v).Ok?
    ensures o.exc.None? ==>
      o.world.setEnv == w.setEnv + (if IsSet(ReadEntry(src, v).value.source) then ExportLine(name) else "")
  {
    match ReadEntry(src, v)
    case Err(e) => Outcome(Some(e), w)
    case Ok(req) =>
      if !IsSet(req.source) then Outcome(None, w)
      else if !req.source.value.Str? then Outcome(Some(TypeError), w)
      else
        var steps := Plan(src, name, req.source.value.s, req);
        RunStepsKeepsSetEnv(w, steps, exitsZero);
        var o := RunSteps(w, steps, exitsZero);
        if o.exc.Some? then o else ExportOutcome(o.world, name)
  }

  /** The entries `for name in data[section]` visits with `data[section][name]`: those of an
      object; nothing for an empty list or string; indexing a list or string by a string, or
      iterating a number, boolean or null, raises TypeError. */
  function Entries(doc: seq<(string, Json)>, src: Source): (r: Result<seq<(string, Json)>>)
    ensures r.Err? ==> r.exc == TypeError
  {
    match Lookup(doc, SectionKey(src))
    case None => Ok([])
    case Some(section) =>
      match section
      case Obj(fields) => Ok(fields)
      case Arr(items) => if items == [] then Ok([]) else Err(TypeError)
      case Str(s) => if s == "" then Ok([]) else Err(TypeError)
      case _ => Err(TypeError)
  }

  /** The entries es handled in order, up to the first that raises. Defined on the last entry so
      that it follows a loop over es. */
  function SectionRun(src: Source, w: World, es: seq<(string, Json)>, exitsZero: Command -> bool): Outcome
    decreases |es|
  {
    if es == [] then Outcome(None, w)
    else
      var o := SectionRun(src, w, es[..|es| - 1], exitsZero);
      if o.exc.Some? then o else EntryOutcome(src, o.world, es[|es| - 1].0, es[|es| - 1].1, exitsZero)
  }

  /** `git_data` / `http_data` on the spec document doc. */
  function SectionOutcome(src: Source, w: World, doc: seq<(string, Json)>, exitsZero: Command -> bool): (o: Outcome)
    ensures Entries(doc, src).Err? ==> o == Outcome(Some(TypeError), w)
    ensures o.exc.None? ==> Entries(doc, src).Ok?
    ensures o.exc.None? ==> o.world.setEnv == w.setEnv + Lines(Fetched(src, Entries(doc, src).value))
  {
    match Entries(doc, src)
    case Err(e) => Outcome(Some(e), w)
    case Ok(es) =>
      var o := SectionRun(src, w, es, exitsZero);
      if o.exc.Some? then o else SectionExports(src, w, es, exitsZero); o
  }

  /** Lines 38-42: `git_data`, then `http_data`, on the same working directory. When both
      complete, `set_env` holds the git lines followed by the http lines. */
  function FetchOutcome(w: World, doc: seq<(string, Json)>, exitsZero: Command -> bool): (o: Outcome)
    ensures o.exc.None? ==> Entries(doc, Git).Ok? && Entries(doc, Http).Ok?
    ensures o.exc.None? ==>
      o.world.setEnv == w.setEnv + Lines(Fetched(Git, Entries(doc, Git).value)) + Lines(Fetched(Http, Entries(doc, Http).value))
  {
    var o := SectionOutcome(Git, w, doc, exitsZero);
    if o.exc.Some? then o else SectionOutcome(Http, o.world, doc, exitsZero)
  }

  /** The working directory the fetchers write to. */
  class WorkDir {
    var fs: map<string, Kind>
    var setEnv: string
    var log: seq<Command>

    function State(): World
      reads this
    {
      World(fs, setEnv, log)
    }

    /** The temporary directory as the fetchers find it: holding `entries` (`conda_spec.yml`,
        written just before), with no `set_env` text and no command run yet. */
    constructor(entries: map<string, Kind>)
      ensures State() == World(entries, "", [])
    {
      fs := entries;
      setEnv := "";
      log := [];
    }

    /** `subprocess.check_call(argv)`. */
    method Run(c: Command, exitsZero: Command -> bool) returns (exc: Option<Exc>)
      modifies this
      ensures Outcome(exc, State()) == RunOutcome(old(State()), c, exitsZero)
    {
      log := log + [c];
      if !exitsZero(c) {
        return Some(CalledProcessError);
      }
      fs := Effect(fs, c);
      exc := None;
    }

    /** `os.mkdir(out_dir + '/' + name)`. */
    method Mkdir(name: string) returns (exc: Option<Exc>)
      modifies this
      ensures Outcome(exc, State()) == MkdirOutcome(old(State()), name)
    {
      if name in fs || AlwaysExists(name) {
        return Some(FileExistsError);
      }
      fs := fs[name := Directory];
      exc := None;
    }

    /** Lines 110-117 / 178-183. */
    method Export(name: string) returns (exc: Option<Exc>)
      modifies this
      ensures Outcome(exc, State()) == ExportOutcome(old(State()), name)
    {
      if PonchoDir !in fs {
        exc := Mkdir(PonchoDir);
      }
      if fs[PonchoDir] == RegularFile {
        return Some(NotADirectoryError);
      }
      setEnv := setEnv + ExportLine(name);
      exc := None;
    }

    /** Lines 155-177: the case table of an http fetch, run against the directory. */
    method HttpFetch(name: string, url: string, fileType: Option<Json>, compression: Option<Json>,
                     exitsZero: Command -> bool) returns (exc: Option<Exc>)
      modifies this
      ensures Outcome(exc, State())
           == RunSteps(old(State()), FetchSteps(name, url, FormatOf(fileType, compression)), exitsZero)
    {
      ghost var steps := FetchSteps(name, url, FormatOf(fileType, compression));
      ghost var w0 := State();
      if fileType == Some(Str("tar")) && compression == Some(Str("gzip")) {
        var tgz := name + ".tar.gz";
        assert steps == [Exec(Download(url, tgz)), MakeDir(name), Exec(Extract(true, tgz, name))];
        exc := Run(Download(url, tgz), exitsZero);
        if exc.Some? { assert Outcome(exc, State()) == RunSteps(w0, steps, exitsZero); return; }
        ghost var w1 := State();
        assert RunSteps(w0, steps, exitsZero) == RunSteps(w1, steps[1..], exitsZero);
        exc := Mkdir(name);
        if exc.Some? { assert Outcome(exc, State()) == RunSteps(w0, steps, exitsZero); return; }
        ghost var w2 := State();
        assert RunSteps(w1, steps[1..], exitsZero) == RunSteps(w2, steps[2..], exitsZero) by {
          assert steps[1..][1..] == steps[2..];
        }
        assert RunSteps(w2, steps[2..], exitsZero) == RunOutcome(w2, Extract(true, tgz, name), exitsZero) by {
          assert steps[2..] == [Exec(Extract(true, tgz, name))] && steps[2..][1..] == [];
        }
        exc := Run(Extract(true, tgz, name), exitsZero);
      } else if fileType == Some(Str("tar")) {
        var tar := name + ".tar";
        assert steps == [Exec(Download(url, tar)), MakeDir(name), Exec(Extract(false, tar, name))];
        exc := Run(Download(url, tar), exitsZero);
        if exc.Some? { assert Outcome(exc, State()) == RunSteps(w0, steps, exitsZero); return; }
        ghost var w1 := State();
        assert RunSteps(w0, steps, exitsZero) == RunSteps(w1, steps[1..], exitsZero);
        exc := Mkdir(name);
        if exc.Some? { assert Outcome(exc, State()) == RunSteps(w0, steps, exitsZero); return; }
        ghost var w2 := State();
        assert RunSteps(w1, steps[1..], exitsZero) == RunSteps(w2, steps[2..], exitsZero) by {
          assert steps[1..][1..] == steps[2..];
        }
        assert RunSteps(w2, steps[2..], exitsZero) == RunOutcome(w2, Extract(false, tar, name), exitsZero) by {
          assert steps[2..] == [Exec(Extract(false, tar, name))] && steps[2..][1..] == [];
        }
        exc := Run(Extract(false, tar, name), exitsZero);
      } else if compression == Some(Str("gzip")) {
        assert steps == [Exec(Download(url, name + ".gz")), Exec(Decompress(name))];
        exc := Run(Download(url, name + ".gz"), exitsZero);
        if exc.Some? { assert Outcome(exc, State()) == RunSteps(w0, steps, exitsZero); return; }
        ghost var w1 := State();
        assert RunSteps(w0, steps, exitsZero) == RunSteps(w1, steps[1..], exitsZero);
        assert RunSteps(w1, steps[1..], exitsZero) == RunOutcome(w1, Decompress(name), exitsZero) by {
          assert steps[1..] == [Exec(Decompress(name))] && steps[1..][1..] == [];
        }
        exc := Run(Decompress(name), exitsZero);
      } else {
        assert steps == [Exec(Download(url, name))];
        assert RunSteps(w0, steps, exitsZero) == RunOutcome(w0, Download(url, name), exitsZero) by {
          assert steps[1..] == [];
        }
        exc := Run(Download(url, name), exitsZero);
      }
    }

    /** The body of the loop of `git_data` (lines 100-117) or `http_data` (lines 143-183). */
    method FetchEntry(src: Source, name: string, v: Json, exitsZero: Command -> bool) returns (exc: Option<Exc>)
      modifies this
      ensures Outcome(exc, State()) == EntryOutcome(src, old(State()), name, v, exitsZero)
    {
      var req := ReadEntry(src, v);
      if req.Err? {
        return Some(req.exc);
      }
      var source := req.value.source;
      if !IsSet(source) {
        return None;
      }
      if !source.value.Str? {
        return Some(TypeError);
      }
      ghost var w0 := State();
      ghost var plan := Plan(src, name, source.value.s, req.value);
      match src {
        case Git =>
          assert RunSteps(w0, plan, exitsZero) == RunOutcome(w0, Clone(source.value.s, name), exitsZero) by {
            assert plan == [Exec(Clone(source.value.s, name))] && plan[1..] == [];
          }
          exc := Run(Clone(source.value.s, name), exitsZero);
        case Http =>
          exc := HttpFetch(name, source.value.s, req.value.fileType, req.value.compression, exitsZero);
      }
      assert Outcome(exc, State()) == RunSteps(w0, plan, exitsZero);
      if exc.Some? {
        return;
      }
      exc := Export(name);
    }

    /** `git_data` (lines 94-117) or `http_data` (lines 137-183) on the spec document doc. */
    method FetchSection(src: Source, doc: seq<(string, Json)>, exitsZero: Command -> bool) returns (exc: Option<Exc>)
      modifies this
      ensures Outcome(exc, State()) == SectionOutcome(src, old(State()), doc, exitsZero)
    {
      var entries := Entries(doc, src);
      if entries.Err? {
        return Some(entries.exc);
      }
      var es := entries.value;
      ghost var w0 := State();
      var i := 0;
      while i < |es|
        invariant 0 <= i <= |es|
        invariant Outcome(None, State()) == SectionRun(src, w0, es[..i], exitsZero)
      {
        assert es[..i + 1][..i] == es[..i];
        exc := FetchEntry(src, es[i].0, es[i].1, exitsZero);
        if exc.Some? {
          assert SectionRun(src, w0, es[..i + 1], exitsZero) == Outcome(exc, State());
          SectionRunStops(src, w0, es[..i + 1], es[i + 1..], exitsZero);
          assert es[..i + 1] + es[i + 1..] == es;
          return;
        }
        i := i + 1;
      }
      assert es[..i] == es;
      exc := None;
    }

    /** Lines 38-42 of `pack_env`: git data first, then http data. */
    method FetchData(doc: seq<(string, Json)>, exitsZero: Command -> bool) returns (exc: Option<Exc>)
      modifies this
      ensures Outcome(exc, State()) == FetchOutcome(old(State()), doc, exitsZero)
    {
      exc := FetchSection(Git, doc, exitsZero);
      if exc.Some? {
        return;
      }
      exc := FetchSection(Http, doc, exitsZero);
    }
  }

  // ---------------------------------------------------------------------------------------
  // Properties

  /** Once an entry raises, later entries are never visited. */
  lemma {:induction false} SectionRunStops(src: Source, w: World, es: seq<(string, Json)>, more: seq<(string, Json)>,
                                           exitsZero: Command -> bool)
    requires SectionRun(src, w, es, exitsZero).exc.Some?
    ensures SectionRun(src, w, es + more, exitsZero) == SectionRun(src, w, es, exitsZero)
    decreases |more|
  {
    if more != [] {
      var init := more[..|more| - 1];
      SectionRunStops(src, w, es, init, exitsZero);
      assert (es + more)[..|es + more| - 1] == es + init;
    } else {
      assert es + more == es;
    }
  }

  /** The names of the entries that are fetched: those whose source is set. */
  function Fetched(src: Source, es: seq<(string, Json)>): (r: seq<string>)
    ensures |r| <= |es|
    decreases |es|
  {
    if es == [] then []
    else
      var last := es[|es| - 1];
      var req := ReadEntry(src, last.1);
      Fetched(src, es[..|es| - 1]) + (if req.Ok? && IsSet(req.value.source) then [last.0] else [])
  }

  /** The text the exports of these names append. */
  function Lines(names: seq<string>): (r: string)
    ensures names == [] ==> r == ""
    decreases |names|
  {
    if names == [] then "" else Lines(names[..|names| - 1]) + ExportLine(names[|names| - 1])
  }

  /** When a section completes, `set_env` has gained exactly one line per fetched entry, in the
      order of the entries, with no deduplication; entries without a source leave no line. */
  lemma {:induction false} SectionExports(src: Source, w: World, es: seq<(string, Json)>, exitsZero: Command -> bool)
    requires SectionRun(src, w, es, exitsZero).exc.None?
    ensures SectionRun(src, w, es, exitsZero).world.setEnv == w.setEnv + Lines(Fetched(src, es))
    decreases |es|
  {
    if es != [] {
      var init := es[..|es| - 1];
      var last := es[|es| - 1];
      var o := SectionRun(src, w, init, exitsZero);
      SectionExports(src, w, init, exitsZero);
      var r := SectionRun(src, w, es, exitsZero);
      assert r == EntryOutcome(src, o.world, last.0, last.1, exitsZero);
      var names := Fetched(src, init);
      var line := if IsSet(ReadEntry(src, last.1).value.source) then ExportLine(last.0) else "";
      assert r.world.setEnv == w.setEnv + Lines(names) + line;
      if IsSet(ReadEntry(src, last.1).value.source) {
        assert Fetched(src, es) == names + [last.0];
        assert (names + [last.0])[..|names|] == names;
        assert Lines(Fetched(src, es)) == Lines(names) + line;
      } else {
        assert Fetched(src, es) == names + [];
        assert names + [] == names;
      }
    }
  }

  /** Running commands never writes `set_env`. */
  lemma {:induction false} RunStepsKeepsSetEnv(w: World, steps: seq<Step>, exitsZero: Command -> bool)
    ensures RunSteps(w, steps, exitsZero).world.setEnv == w.setEnv
    decreases |steps|
  {
    if steps != [] {
      RunStepsKeepsSetEnv(StepOutcome(w, steps[0], exitsZero).world, steps[1..], exitsZero);
    }
  }

  /** When every command succeeds, an http fetch leaves `<name>` in the directory: a directory for
      a tarball, a regular file otherwise. A tarball fetch fails exactly when `<name>` already
      exists (os.mkdir), e.g. after a git entry of the same name was cloned, or names the
      directory itself or its parent. */
  lemma FetchMaterializes(w: World, name: string, url: string, f: Format, exitsZero: Command -> bool)
    requires forall c :: exitsZero(c)
    ensures (f == TarGz || f == Tar) ==>
              (RunSteps(w, FetchSteps(name, url, f), exitsZero).exc.None? <==> name !in Effect(w.fs, Download(url, DownloadTarget(name, f))) && !AlwaysExists(name))
    ensures (f == Gz || f == Plain) ==> RunSteps(w, FetchSteps(name, url, f), exitsZero).exc.None?
    ensures RunSteps(w, FetchSteps(name, url, f), exitsZero).exc.None? ==>
              name in RunSteps(w, FetchSteps(name, url, f), exitsZero).world.fs
              && RunSteps(w, FetchSteps(name, url, f), exitsZero).world.fs[name]
                 == (if f == TarGz || f == Tar then Directory else RegularFile)
  {
    var steps := FetchSteps(name, url, f);
    var o1 := RunOutcome(w, steps[0].cmd, exitsZero);
    assert o1.exc.None? && o1.world.fs == Effect(w.fs, Download(url, DownloadTarget(name, f)));
    assert RunSteps(w, steps, exitsZero) == RunSteps(o1.world, steps[1..], exitsZero);
    if f == TarGz || f == Tar {
      assert steps[1..] == [MakeDir(name), steps[2]] && steps[1..][1..] == [steps[2]] && [steps[2]][1..] == [];
      var o2 := MkdirOutcome(o1.world, name);
      if o2.exc.None? {
        var o3 := RunOutcome(o2.world, steps[2].cmd, exitsZero);
        assert steps[2].cmd.Extract?;
        assert o3 == Outcome(None, World(o2.world.fs, o2.world.setEnv, o2.world.log + [steps[2].cmd]));
        assert RunSteps(o1.world, steps[1..], exitsZero) == RunSteps(o2.world, [steps[2]], exitsZero);
        assert RunSteps(o2.world, [steps[2]], exitsZero) == o3;
      } else {
        assert RunSteps(o1.world, steps[1..], exitsZero) == o2;
      }
    } else if f == Gz {
      assert steps[1..] == [Exec(Decompress(name))] && steps[1..][1..] == [];
      var o2 := RunOutcome(o1.world, Decompress(name), exitsZero);
      assert RunSteps(o1.world, steps[1..], exitsZero) == o2;
    } else {
      assert steps[1..] == [];
    }
  }

  /** The git `ref` is read but has no effect: two entries with the same `remote` are fetched
      alike, whatever else they hold and in whatever order. */
  lemma GitRefInert(w: World, name: string, f1: seq<(string, Json)>, f2: seq<(string, Json)>, exitsZero: Command -> bool)
    requires Lookup(f1, "remote") == Lookup(f2, "remote")
    ensures EntryOutcome(Git, w, name, Obj(f1), exitsZero) == EntryOutcome(Git, w, name, Obj(f2), exitsZero)
  {
  }

  /** The git example: a single entry with a remote is cloned and exported. */
  lemma GitExample(exitsZero: Command -> bool)
    requires forall c :: exitsZero(c)
    ensures SectionOutcome(Git, World(map[], "", []), [("git", Obj([("tools", Obj([("remote", Str("https://example/repo.git"))]))]))], exitsZero)
         == Outcome(None, World(map["tools" := Directory, "poncho" := Directory], "export tools=$1/tools\n",
                                [Clone("https://example/repo.git", "tools")]))
  {
    var w := World(map[], "", []);
    var es := [("tools", Obj([("remote", Str("https://example/repo.git"))]))];
    assert es[..0] == [];
    var c := Clone("https://example/repo.git", "tools");
    var o := RunOutcome(w, c, exitsZero);
    assert o.world == World(map["tools" := Directory], "", [c]);
    assert "poncho" != "tools";
    assert ExportLine("tools") == "export tools=$1/tools\n";
  }

  /** A gzipped tarball whose name is free is downloaded, then extracted: those are the two
      commands run, in that order. */
  lemma TarGzCommands(w: World, name: string, url: string, exitsZero: Command -> bool)
    requires forall c :: exitsZero(c)
    requires name != name + ".tar.gz" && name !in w.fs && !AlwaysExists(name)
    ensures RunSteps(w, FetchSteps(name, url, TarGz), exitsZero)
         == Outcome(None, World(w.fs[name + ".tar.gz" := RegularFile][name := Directory], w.setEnv,
                                w.log + [Download(url, name + ".tar.gz"), Extract(true, name + ".tar.gz", name)]))
  {
    var steps := FetchSteps(name, url, TarGz);
    var o1 := RunOutcome(w, steps[0].cmd, exitsZero);
    assert o1.world.fs == w.fs[name + ".tar.gz" := RegularFile];
    assert RunSteps(w, steps, exitsZero) == RunSteps(o1.world, steps[1..], exitsZero);
    var o2 := MkdirOutcome(o1.world, name);
    assert steps[1..][1..] == steps[2..] && steps[2..][1..] == [];
    assert RunSteps(o1.world, steps[1..], exitsZero) == RunSteps(o2.world, steps[2..], exitsZero);
  }

  /** The http example: a gzipped tarball is downloaded, a directory is made, and it is extracted. */
  lemma HttpExample(exitsZero: Command -> bool)
    requires forall c :: exitsZero(c)
    ensures EntryOutcome(Http, World(map[], "", []), "data",
                         Obj([("url", Str("https://example/d")), ("type", Str("tar")), ("compression", Str("gzip"))]),
                         exitsZero).world.log
         == [Download("https://example/d", "data.tar.gz"), Extract(true, "data.tar.gz", "data")]
  {
    var fields := [("url", Str("https://example/d")), ("type", Str("tar")), ("compression", Str("gzip"))];
    assert "url" != "type" && "url" != "compression" && "type" != "compression";
    assert ReadEntry(Http, Obj(fields)) == Ok(Request(Some(Str("https://example/d")), Some(Str("tar")), Some(Str("gzip"))));
    assert "data" + ".tar.gz" == "data.tar.gz" && "data" != "data.tar.gz";
    TarGzCommands(World(map[], "", []), "data", "https://example/d", exitsZero);
  }
}
