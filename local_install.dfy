/** Installing the editable pip packages the conda spec kept aside (`pip_local`) into the new
    environment: the argv lists handed to `conda` (`_run_conda_command`,
    `_install_local_pip`). Running the commands is not modelled; the output of `pip -V` is an
    input, and whether its version is older than 22.1 is a parameter. */
module LocalInstall {
  import opened Values
  import opened EditableList

  /** `['conda'] + command.split() + ['--prefix=' + environment] + list(args)` */
  function CondaArgv(environment: string, command: string, args: seq<string>): (r: seq<string>)
    ensures |r| == 2 + |Fields(command)| + |args|
    ensures r[0] == "conda"
    ensures r[1 + |Fields(command)|] == "--prefix=" + environment
    ensures r[2 + |Fields(command)|..] == args
  {
    ["conda"] + Fields(command) + ["--prefix=" + environment] + args
  }

  /** A command written as space-separated words is split back into exactly those words, so
      they sit between `conda` and the `--prefix` option. */
  lemma CondaArgvOfWords(environment: string, ws: seq<string>, args: seq<string>)
    requires forall w :: w in ws ==> w != [] && NoSpace(w)
    ensures CondaArgv(environment, Unwords(ws), args) == ["conda"] + ws + ["--prefix=" + environment] + args
  {
    FieldsUnwords(ws);
  }

  const InTreeBuild := "--use-feature=in-tree-build"

  /** The version pip reports: the second field of `pip -V`'s output (`split()[1]`); an output
      with fewer than two fields raises IndexError. */
  function PipVersion(output: string): (r: Result<string>)
    ensures r.Ok? <==> |Fields(output)| >= 2
    ensures r.Ok? ==> r.value != [] && NoSpace(r.value)
    ensures r.Err? ==> r.exc == IndexError
  {
    var fs := Fields(output);
    if |fs| < 2 then Err(IndexError) else
      assert fs[1] in fs;
      Ok(fs[1])
  }

  /** `pip -V` prints "pip <version> from <location> (python <x.y>)": its version is read back. */
  lemma {:induction false} PipVersionOfBanner(v: string, rest: seq<string>)
    requires v != [] && NoSpace(v)
    requires forall w :: w in rest ==> w != [] && NoSpace(w)
    ensures PipVersion(Unwords(["pip", v] + rest)) == Ok(v)
  {
    var ws := ["pip", v] + rest;
    assert NoSpace("pip") by {
      forall k | 0 <= k < 3 ensures !IsSpace("pip"[k]) {
      }
    }
    assert forall w :: w in ws ==> w == "pip" || w == v || w in rest;
    FieldsUnwords(ws);
    assert Fields(Unwords(ws))[1] == v;
  }

  /** The argv `_install_local_pip` runs for one package: `conda run --prefix=<env> pip install`,
      with the in-tree-build option when pip is older than 22.1, then the package path. */
  function InstallArgv(envDir: string, pipPath: string, olderPip: bool): (r: seq<string>)
    ensures |r| == (if olderPip then 7 else 6)
    ensures r[..5] == ["conda", "run", "--prefix=" + envDir, "pip", "install"]
    ensures olderPip ==> r[5] == InTreeBuild
    ensures r[|r| - 1] == pipPath
  {
    assert Unwords(["run"]) == "run";
    assert "run" != [] && NoSpace("run") by {
      forall k | 0 <= k < 3 ensures !IsSpace("run"[k]) {
      }
    }
    CondaArgvOfWords(envDir, ["run"], []);
    var args := if olderPip then ["pip", "install", InTreeBuild, pipPath] else ["pip", "install", pipPath];
    var r := CondaArgv(envDir, "run", args);
    assert r == ["conda", "run", "--prefix=" + envDir] + args;
    r
  }

  /** `_install_local_pip(env_dir, name, path)`: reads pip's version from the output of `pip -V`
      (IndexError when it has too few fields), then chooses the argv. `olderThan` stands for
      `version.parse(v) < version.parse('22.1')`. */
  function InstallLocalPip(envDir: string, pipPath: string, pipOutput: string, olderThan: string -> bool): (r: Result<seq<string>>)
    ensures r.Err? <==> |Fields(pipOutput)| < 2
    ensures r.Err? ==> r.exc == IndexError
    ensures r.Ok? ==> r.value == InstallArgv(envDir, pipPath, olderThan(Fields(pipOutput)[1]))
  {
    match PipVersion(pipOutput)
    case Err(e) => Err(e)
    case Ok(v) => Ok(InstallArgv(envDir, pipPath, olderThan(v)))
  }

  /** The install commands for the names of `order`, one after the other. */
  function Installs(envDir: string, pipLocal: map<string, string>, order: seq<string>, olderPip: bool): (r: seq<seq<string>>)
    requires forall name :: name in order ==> name in pipLocal
    ensures |r| == |order|
  {
    if order == [] then [] else
      var last := |order| - 1;
      assert order[last] in order;
      Installs(envDir, pipLocal, order[..last], olderPip) + [InstallArgv(envDir, pipLocal[order[last]], olderPip)]
  }

  /** The i-th command installs the i-th name of the order. */
  lemma {:induction false} InstallsAt(envDir: string, pipLocal: map<string, string>, order: seq<string>, olderPip: bool, i: int)
    requires forall name :: name in order ==> name in pipLocal
    requires 0 <= i < |order|
    ensures order[i] in pipLocal
    ensures Installs(envDir, pipLocal, order, olderPip)[i] == InstallArgv(envDir, pipLocal[order[i]], olderPip)
  {
    assert order[i] in order;
    var last := |order| - 1;
    var init := Installs(envDir, pipLocal, order[..last], olderPip);
    assert Installs(envDir, pipLocal, order, olderPip) == init + [InstallArgv(envDir, pipLocal[order[last]], olderPip)];
    if i < last {
      assert order[..last][i] == order[i];
      InstallsAt(envDir, pipLocal, order[..last], olderPip, i);
      assert Installs(envDir, pipLocal, order, olderPip)[i] == init[i];
    }
  }

  /** The loop over `conda_spec['pip_local'].items()` in `pack_env`: one install per local
      package, in the dict's order (arbitrary here, and returned as `order`); the first failure
      ends the run. */
  method InstallAll(envDir: string, pipLocal: map<string, string>, pipOutput: string, olderThan: string -> bool)
    returns (r: Result<seq<seq<string>>>, order: seq<string>)
    ensures pipLocal == map[] ==> r == Ok([])
    ensures r.Err? <==> pipLocal != map[] && |Fields(pipOutput)| < 2
    ensures r.Err? ==> r.exc == IndexError && order == []
    ensures r.Ok? ==> Distinct(order) && forall name :: name in pipLocal <==> name in order
    ensures r.Ok? ==> |order| == |pipLocal| && r.value == Installs(envDir, pipLocal, order,
      |Fields(pipOutput)| >= 2 && olderThan(Fields(pipOutput)[1]))
  {
    var todo := pipLocal.Keys;
    var cmds: seq<seq<string>> := [];
    order := [];
    ghost var done: set<string> := {};
    ghost var fs := Fields(pipOutput);
    ghost var older := |fs| >= 2 && olderThan(fs[1]);
    while todo != {}
      invariant done !! todo && done + todo == pipLocal.Keys
      invariant |order| == |done|
      invariant Distinct(order) && forall name :: name in order <==> name in done
      invariant done != {} ==> |fs| >= 2
      invariant cmds == Installs(envDir, pipLocal, order, older)
      decreases |todo|
    {
      var name :| name in todo;
      var res := InstallLocalPip(envDir, pipLocal[name], pipOutput, olderThan);
      if res.Err? {
        assert done == {};
        order := [];
        return Err(res.exc), order;
      }
      assert res.value == InstallArgv(envDir, pipLocal[name], older);
      MoveOne(done, todo, name);
      DistinctSnoc(order, name);
      InstallsSnoc(envDir, pipLocal, order, name, older);
      cmds := cmds + [res.value];
      order := order + [name];
      todo := todo - {name};
      done := done + {name};
    }
    assert done == pipLocal.Keys;
    if pipLocal != map[] {
      var name :| name in pipLocal;
      assert name in done;
    }
    return Ok(cmds), order;
  }

  /** Visiting one more name appends its install command. */
  lemma InstallsSnoc(envDir: string, pipLocal: map<string, string>, order: seq<string>, name: string, olderPip: bool)
    requires forall n :: n in order ==> n in pipLocal
    requires name in pipLocal
    ensures forall n :: n in order + [name] ==> n in pipLocal
    ensures Installs(envDir, pipLocal, order + [name], olderPip)
      == Installs(envDir, pipLocal, order, olderPip) + [InstallArgv(envDir, pipLocal[name], olderPip)]
  {
    assert (order + [name])[..|order|] == order;
  }

  /** Every package of `pip_local` is installed from its own path, each exactly once. */
  lemma InstallsEach(envDir: string, pipLocal: map<string, string>, order: seq<string>, olderPip: bool, name: string)
    requires Distinct(order) && forall n :: n in pipLocal <==> n in order
    requires name in pipLocal
    ensures var cmds := Installs(envDir, pipLocal, order, olderPip);
      exists i :: 0 <= i < |order| && order[i] == name && cmds[i] == InstallArgv(envDir, pipLocal[name], olderPip)
  {
    assert name in order;
    var i :| 0 <= i < |order| && order[i] == name;
    InstallsAt(envDir, pipLocal, order, olderPip, i);
  }

  /** Appending a name not yet visited keeps the visiting order free of repeats. */
  lemma DistinctSnoc(order: seq<string>, name: string)
    requires Distinct(order) && name !in order
    ensures Distinct(order + [name])
  {
  }

  /** Moving one name from the pending set to the handled set. */
  lemma MoveOne(done: set<string>, todo: set<string>, name: string)
    requires done !! todo && name in todo
    ensures done + {name} !! todo - {name}
    ensures (done + {name}) + (todo - {name}) == done + todo
    ensures |done + {name}| == |done| + 1
  {
  }

  /** Given the banner of `pip -V`, the install uses the version it names: the in-tree-build
      option is added exactly when that version is older than 22.1. */
  lemma InstallFromBanner(envDir: string, pipPath: string, v: string, rest: seq<string>, olderThan: string -> bool)
    requires v != [] && NoSpace(v)
    requires forall w :: w in rest ==> w != [] && NoSpace(w)
    ensures InstallLocalPip(envDir, pipPath, Unwords(["pip", v] + rest), olderThan)
      == Ok(InstallArgv(envDir, pipPath, olderThan(v)))
    ensures var a := InstallArgv(envDir, pipPath, olderThan(v));
      olderThan(v) <==> InTreeBuild in a[..|a| - 1]
  {
    PipVersionOfBanner(v, rest);
    var a := InstallArgv(envDir, pipPath, olderThan(v));
    var p := "--prefix=" + envDir;
    assert p[2] != InTreeBuild[2];
    assert InTreeBuild !in a[..5];
    if olderThan(v) {
      assert a[..|a| - 1] == a[..5] + [a[5]];
    } else {
      assert a[..|a| - 1] == a[..5];
    }
  }
}
