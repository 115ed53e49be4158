# poncho `package_create`: the spec merge, the editable-package parser and the data fetchers

Poncho packs a conda environment from a JSON spec file. Before conda runs, `package_create.py`
does four things that this project models in Dafny:

- It strips version qualifiers from requirement strings. `re.sub("[!~=<>].*$", "", req)` turns
  `numpy>=1.2` into `numpy`.
- It reads the output of `pip list --editable` (`_find_local_pip`). This gives a map from each
  editable package to its source location.
- It merges the spec with that map (`create_conda_spec`). Every requirement whose bare name is
  an editable package is removed from the conda and pip requirement lists and recorded in
  `local_reqs`.
  - Both spec layouts are handled: the `conda.dependencies` list and the older
    `conda.packages` + top-level `pip` sets.
  - Editable packages the spec does not name are warned about.
  - The environment gets `pip_local`, the locations of the recorded packages.
- It fetches the `git` and `http` sections into the working directory (`git_data`,
  `http_data`). Each fetched entry appends `export <name>=$1/<name>` to `poncho/set_env`.

The model also builds the `conda` argument lists used to install the recorded editable
packages (`_run_conda_command`, `_install_local_pip`).

## Modules

- `values.dfy` (module `Values`): JSON values as `json.load` returns them. It also holds the
  Python exceptions the code raises, and the Python operations the code applies to those values:
  iteration, `in`, `d[k]`, `dict.get`, truthiness and `list.remove`.
- `requirement.dfy` (module `Requirement`):
  - `StripVersion` follows Python's `re` exactly: `.` stops at a newline, and `$` also matches
    before a final newline.
  - `BareName` is the reference definition it is proved against.
- `editable_list.dfy` (module `EditableList`):
  - `str.split('\n')` and `str.split()` on Python's whitespace class.
  - The row parser `ParseRows`.
  - The method `FindLocalPip`, which is the loop of `_find_local_pip`.
- `conda_spec.dfy` (module `CondaSpec`): the merge.
  - Python filters each list by iterating a snapshot (`list(x)`) and removing from the live list.
    The methods `FilterReqs`, `FilterDeps` and `DropLocal` do the same. Each is proved equal to
    a specification (`KeptReqs`, `KeptDeps`, `ReqNames`, `DepNames`, `Unmatched`,
    `MatchedNames`), and the lemmas state what those specifications guarantee.
  - `Merge` is the whole merge as a function.
  - `CreateCondaSpec` is the procedure. Its result is tied to `Merge`.
- `data_fetch.dfy` (module `DataFetch`): the working directory is a class `WorkDir`.
  - Its state is its top-level entries, the text of `poncho/set_env` and the log of external
    commands.
  - The methods change that state step by step, as `git_data` and `http_data` do. Each is proved
    equal to an outcome function (`EntryOutcome`, `SectionOutcome`, `FetchOutcome`).
  - Whether an external command exits with status 0 is a parameter, `exitsZero`.
- `local_install.dfy` (module `LocalInstall`): the argv lists for installing the editable
  packages.
  - The output of `pip -V` is an input.
  - The version test `version.parse(v) < version.parse('22.1')` is a parameter.

### Edge cases the model follows

- **Spec without `conda`:** `channels` stays `[]` and `dependencies` stays `set()`.
  `json.dump` cannot serialise a set, so the call raises TypeError. `CreateCondaSpec` returns
  `Err(TypeError)` in that case, after the warnings.
- **Requirements containing a newline:** stripping is not "everything before the first
  qualifier". `StripVersion("a=\n<")` is `"a=\n"`, and stripping again gives `"a\n"`
  (`StripNotIdempotentAcrossNewline`). Idempotence and the agreement with `BareName` are proved
  for newline-free strings.
- **Legacy layout:** the order of the surviving requirements is not specified. They go through
  Python sets, so the model states them as sets and lists them in some order
  (`ListOf`, `Enumerates`).

## Model

| member | source | states |
|---|---|---|
| Requirement.StripVersion | poncho/src/poncho/package_create.py:210 | the stripped string is never longer than the requirement, equals it when no qualifier character occurs, and is a prefix of it when it holds no newline |
| Requirement.BareName | poncho/src/poncho/package_create.py:210 | reference definition: a prefix of the input, with no qualifier, stopped at a qualifier character |
| Requirement.StripWithoutQualifier | poncho/src/poncho/package_create.py:210 | a requirement without any of `!~=<>` is left unchanged |
| Requirement.StripIsBareName | poncho/src/poncho/package_create.py:210 | on a newline-free string, stripping keeps exactly the part before the first qualifier character |
| Requirement.StripLeavesNoQualifier | poncho/src/poncho/package_create.py:215 | for a newline-free requirement, the stripped name is a prefix of it and holds no qualifier character |
| Requirement.StripIdempotent | poncho/src/poncho/package_create.py:228 | stripping a newline-free requirement twice equals stripping it once |
| Requirement.StripRangeExample | poncho/src/poncho/package_create.py:238 | `foo>=1.2,<2` strips to `foo` |
| Requirement.StripKeepsSpaceExample | poncho/src/poncho/package_create.py:210 | whitespace before the qualifier is kept: `foo >=1` strips to `foo ` |
| Requirement.StripNotIdempotentAcrossNewline | poncho/src/poncho/package_create.py:210 | with an inner newline the match starts after it, so a second strip changes the result |
| EditableList.SplitLines | poncho/src/poncho/package_create.py:80 | `split('\n')` yields at least one piece and no piece holds a newline |
| EditableList.JoinSplitLines | poncho/src/poncho/package_create.py:80 | joining the pieces with newlines gives back the text |
| EditableList.SplitJoinLines | poncho/src/poncho/package_create.py:80 | newline-free lines joined by newlines split back into the same lines |
| EditableList.Fields | poncho/src/poncho/package_create.py:89 | every field of `split()` is non-empty and whitespace-free |
| EditableList.FieldsOfBlank | poncho/src/poncho/package_create.py:89 | a whitespace-only line has no fields |
| EditableList.FieldsUnwords | poncho/src/poncho/package_create.py:89 | `split()` inverts joining non-empty, whitespace-free words with spaces |
| EditableList.ParseRows | poncho/src/poncho/package_create.py:82-90 | a failed parse is always ValueError, and a successful one keeps every name it started from |
| EditableList.FindLocalPip | poncho/src/poncho/package_create.py:76-91 | the loop returns exactly the parse of the rows after the two header lines (`ParseRows`) |
| EditableList.ParseFailsIff | poncho/src/poncho/package_create.py:82-89 | the parse fails iff some row is neither empty nor three fields, and the failure is ValueError |
| EditableList.BlankRowFails | poncho/src/poncho/package_create.py:84-89 | a non-empty whitespace-only row makes the parse fail with ValueError |
| EditableList.ParseKeys | poncho/src/poncho/package_create.py:88-90 | the keys of the result are exactly the names of the well-formed rows |
| EditableList.ParseLastRowWins | poncho/src/poncho/package_create.py:88-90 | a row's location is the result for its name unless a later row names the same package |
| EditableList.LaterRowsKeep | poncho/src/poncho/package_create.py:88-90 | rows not naming a package leave its location unchanged |
| EditableList.ParseExample | poncho/src/poncho/package_create.py:82-90 | `foo 1.0 /src/foo` maps `foo` to `/src/foo`; an empty row is skipped |
| EditableList.RowsExample | poncho/src/poncho/package_create.py:80 | the two header lines are dropped and a trailing newline leaves an empty row |
| CondaSpec.ReqFaultKind | poncho/src/poncho/package_create.py:209-213 | walking a pip value raises only TypeError or AttributeError, and AttributeError never for a list |
| CondaSpec.FixedReqsMatchNothing | poncho/src/poncho/package_create.py:209-213 | when nothing can be removed, a pass without exception records no name |
| CondaSpec.CleanPip | poncho/src/poncho/package_create.py:208-213 | a pip value raises TypeError, or AttributeError only when it is not a list; the names recorded are editable packages; a string or dict value passes only unchanged and with no name |
| CondaSpec.KeptReqsSound | poncho/src/poncho/package_create.py:209-213 | every surviving pip requirement is one of the input's and is not local |
| CondaSpec.KeptReqsAppend | poncho/src/poncho/package_create.py:209-213 | filtering a concatenation concatenates the results, so relative order is kept |
| CondaSpec.KeptReqsCount | poncho/src/poncho/package_create.py:209-213 | a non-local requirement keeps all its occurrences, a local one loses all of them |
| CondaSpec.ReqFaultFreeIff | poncho/src/poncho/package_create.py:209-213 | the pip list is processed without exception iff no element raises on its own |
| CondaSpec.ReqNamesIff | poncho/src/poncho/package_create.py:210-212 | a name is added to `local_reqs` iff some dropped requirement strips to it |
| CondaSpec.LiveListStep | poncho/src/poncho/package_create.py:213 | removing a visited local requirement from the live list leaves the survivors so far followed by the unvisited rest |
| CondaSpec.FilterReqs | poncho/src/poncho/package_create.py:209-213 | iterating a snapshot and removing from the live list yields the filtered list and names, or the first element's exception |
| CondaSpec.FilterPipList | poncho/src/poncho/package_create.py:208-213 | one pip entry's value: a list is filtered, a string or dict is walked and fails on a local match, anything else raises TypeError |
| CondaSpec.VisitDep | poncho/src/poncho/package_create.py:208-218 | one dependency entry: it raises exactly its own fault; otherwise it is removed iff it is a local requirement string, a pip entry is rewritten to its filtered form, and the names are that entry's |
| CondaSpec.KeptDepsAppend | poncho/src/poncho/package_create.py:207-218 | filtering concatenated entries concatenates the results |
| CondaSpec.KeptDepsSound | poncho/src/poncho/package_create.py:207-218 | no surviving entry is a local requirement string |
| CondaSpec.KeptDepsFrom | poncho/src/poncho/package_create.py:207-218 | every surviving entry is the filtered form of an input entry that was not dropped |
| CondaSpec.KeptDepsComplete | poncho/src/poncho/package_create.py:207-218 | every input entry that is not a local requirement string survives in its filtered form |
| CondaSpec.PipEntrySurvives | poncho/src/poncho/package_create.py:208-213 | a pip entry that passed is never removed, even if its list becomes empty, and holds the filtered list under "pip" |
| CondaSpec.DepNamesIff | poncho/src/poncho/package_create.py:207-218 | a name is added to `local_reqs` iff some entry contributes it |
| CondaSpec.DepNamesOfIff | poncho/src/poncho/package_create.py:208-218 | an entry contributes exactly the bare name of a dropped requirement string, or the bare names dropped from its pip list when that passed; a dict without "pip" raises TypeError |
| CondaSpec.DepFaultKind | poncho/src/poncho/package_create.py:207-218 | walking the dependencies raises only TypeError or AttributeError |
| CondaSpec.FixedDepsUnchanged | poncho/src/poncho/package_create.py:205-218 | requirement strings that cannot be removed pass only when none is local, and then unchanged and with no name |
| CondaSpec.NewFormDependencies | poncho/src/poncho/package_create.py:203-220 | the new-form step raises only TypeError or AttributeError, records only editable packages, never lengthens the list, and passes a string or dict `dependencies` only unchanged |
| CondaSpec.LiveDepsDrop | poncho/src/poncho/package_create.py:218 | `deps.remove(dep)` on the live list removes the visited occurrence |
| CondaSpec.LiveDepsKeep | poncho/src/poncho/package_create.py:209-213 | filtering a pip entry in place rewrites the visited position of the live list |
| CondaSpec.VisitAt | poncho/src/poncho/package_create.py:207-218 | one turn of the loop takes the live list, its position and the names from the state after the first i entries to the state after i + 1, or raises the first entry's exception |
| CondaSpec.FilterDeps | poncho/src/poncho/package_create.py:207-218 | the loop over the snapshot gives the surviving entries and names, or the first entry's exception |
| CondaSpec.FilterDependencies | poncho/src/poncho/package_create.py:205-220 | the whole new-form step: a non-iterable value raises TypeError, else the result of the loop |
| CondaSpec.DepFaultFreeIff | poncho/src/poncho/package_create.py:207-218 | the dependency list is processed without exception iff no entry raises on its own |
| CondaSpec.KeptDepsCount | poncho/src/poncho/package_create.py:214-218 | a non-local requirement string keeps all its occurrences, a local one loses all of them |
| CondaSpec.CleanDepIsClean | poncho/src/poncho/package_create.py:208-213 | a pip entry that passed holds no local requirement |
| CondaSpec.KeptDepsClean | poncho/src/poncho/package_create.py:207-218 | every entry surviving a successful pass is clean |
| CondaSpec.NewFormLeavesNoLocal | poncho/src/poncho/package_create.py:203-220 | after a successful new-form merge no local requirement is left, at the top level or inside a pip list |
| CondaSpec.Strings | poncho/src/poncho/package_create.py:225 | the set holds x iff the list holds the string x |
| CondaSpec.RequirementSet | poncho/src/poncho/package_create.py:225 | building the requirement set fails only with TypeError |
| CondaSpec.DropLocal | poncho/src/poncho/package_create.py:227-231 | walking `list(s)` and removing from s leaves exactly the non-local requirements, and records the bare names of the local ones |
| CondaSpec.ListOf | poncho/src/poncho/package_create.py:232 | `list(s)` lists every element exactly once |
| CondaSpec.EnumeratesSize | poncho/src/poncho/package_create.py:232 | such a listing has as many entries as the set |
| CondaSpec.LegacyNamesAgree | poncho/src/poncho/package_create.py:237-241 | the legacy layout records the same names as the new layout on the same strings |
| CondaSpec.LegacyKeptAgree | poncho/src/poncho/package_create.py:237-243 | the legacy layout keeps the same requirements as the new layout, as a set |
| CondaSpec.Merge | poncho/src/poncho/package_create.py:186-244 | every name in `local_reqs` is an editable package |
| CondaSpec.Written | poncho/src/poncho/package_create.py:250-251 | the written object has no `pip_local` key and holds the dependency list |
| CondaSpec.PipLocal | poncho/src/poncho/package_create.py:255 | `pip_local` has exactly the recorded names as keys, each mapped to its location |
| CondaSpec.WarnUnclaimed | poncho/src/poncho/package_create.py:246-248 | a warning goes to exactly the editable packages not recorded in `local_reqs` |
| CondaSpec.CreateCondaSpec | poncho/src/poncho/package_create.py:186-257 | an object is dumped iff an environment is returned, and it is that environment without `pip_local`; an exception from the merge is returned with no warnings; otherwise the warnings, channels, dependencies (filtered list, or legacy packages then one pip entry), name `base` and `pip_local` are as `Merge` states, and a spec without `conda` raises TypeError at `json.dump` |
| CondaSpec.MergeLeavesNoLocal | poncho/src/poncho/package_create.py:199-243 | after a successful merge, in either layout, no kept requirement is local and `local_reqs` is within the editable packages |
| CondaSpec.NewFormIgnoresLegacyKeys | poncho/src/poncho/package_create.py:199-205 | two specs whose `conda` objects agree on `channels` and a present `dependencies` merge alike, whatever their other keys (`conda.packages`, top-level `pip`, `git`, `http`) and their order |
| CondaSpec.PipListExample | poncho/src/poncho/package_create.py:209-213 | a pip list without editable names passes unchanged |
| CondaSpec.DependenciesExample | poncho/src/poncho/package_create.py:207-220 | `foo>=1` with `foo` editable is dropped and recorded; the pip entry stays |
| CondaSpec.MergeExample | poncho/src/poncho/package_create.py:201 | without `channels`, the channels are `conda-forge`, `defaults` |
| DataFetch.Effect | poncho/src/poncho/package_create.py:155-177 | a successful clone makes its target a directory, a download makes its target a file, decompressing replaces `<target>.gz` by `<target>`, extracting changes no top-level name, and no other name changes |
| DataFetch.RunOutcome | poncho/src/poncho/package_create.py:161-177 | `check_call` logs the command, raises iff the exit status is non-zero, and never writes `set_env` |
| DataFetch.MkdirOutcome | poncho/src/poncho/package_create.py:162 | `os.mkdir` fails with FileExistsError, changing nothing, iff the name exists or is `""`, `.` or `..` (the directory itself or its parent); otherwise it adds a directory |
| DataFetch.ExportLine | poncho/src/poncho/package_create.py:119 | the line is `export `, the name, `=$1/`, the name, then a newline |
| DataFetch.ExportOutcome | poncho/src/poncho/package_create.py:115-121 | appending fails iff `poncho` is a regular file, otherwise `poncho` is a directory and exactly one line is appended |
| DataFetch.FormatOf | poncho/src/poncho/package_create.py:159-177 | the case table: tar+gzip, then tar, then gzip, else plain, first match wins |
| DataFetch.FetchSteps | poncho/src/poncho/package_create.py:155-177 | every http fetch downloads first, to the name with the case's suffix, and downloads once |
| DataFetch.ReadEntry | poncho/src/poncho/package_create.py:146-153 | for an object entry the source (`remote` / `url`) is read as the entry holds it |
| DataFetch.EntryOutcome | poncho/src/poncho/package_create.py:100-121 | an entry that raises leaves `set_env` alone; one that completes appends its line exactly when its source is set |
| DataFetch.Entries | poncho/src/poncho/package_create.py:141-142 | a section that cannot be walked by name raises TypeError |
| DataFetch.SectionOutcome | poncho/src/poncho/package_create.py:137-183 | a section that cannot be walked raises TypeError and changes nothing; a completed section appends one line per fetched entry, in entry order |
| DataFetch.FetchOutcome | poncho/src/poncho/package_create.py:38-42 | after both fetchers complete, `set_env` holds the git lines followed by the http lines |
| DataFetch.WorkDir.constructor | poncho/src/poncho/package_create.py:30-35 | the fetchers start from the temporary directory as it is, holding `conda_spec.yml` already, with no `set_env` text and no command run |
| DataFetch.WorkDir.Run | poncho/src/poncho/package_create.py:113 | the new state and exception are those of `RunOutcome` |
| DataFetch.WorkDir.Mkdir | poncho/src/poncho/package_create.py:162 | the new state and exception are those of `MkdirOutcome` |
| DataFetch.WorkDir.Export | poncho/src/poncho/package_create.py:178-183 | the new state and exception are those of `ExportOutcome` |
| DataFetch.WorkDir.HttpFetch | poncho/src/poncho/package_create.py:155-177 | the if-chain runs the steps `FetchSteps` lists for the case `FormatOf` picks, stopping at the first failure |
| DataFetch.WorkDir.FetchEntry | poncho/src/poncho/package_create.py:100-121 | one entry, as `EntryOutcome` states: skipped without a truthy source, TypeError for a non-string source, else fetch then export |
| DataFetch.WorkDir.FetchSection | poncho/src/poncho/package_create.py:137-183 | the loop handles the entries in order and stops at the first exception (`SectionOutcome`) |
| DataFetch.WorkDir.FetchData | poncho/src/poncho/package_create.py:38-42 | git data first, then http data on the resulting directory (`FetchOutcome`) |
| DataFetch.SectionRunStops | poncho/src/poncho/package_create.py:98-121 | after an entry raises, later entries change nothing |
| DataFetch.SectionExports | poncho/src/poncho/package_create.py:142-183 | a completed section appends one line per fetched entry, in entry order |
| DataFetch.RunStepsKeepsSetEnv | poncho/src/poncho/package_create.py:155-177 | external commands and `os.mkdir` never change `set_env` |
| DataFetch.FetchMaterializes | poncho/src/poncho/package_create.py:159-177 | if every command succeeds: a tarball fetch fails iff the name exists after the download or is `""`, `.` or `..`, other fetches succeed, and on success the name is a directory (tarball) or a file |
| DataFetch.GitRefInert | poncho/src/poncho/package_create.py:104-107 | two git entries with the same `remote` are fetched alike, whatever else they hold (`ref` included) and in whatever key order |
| DataFetch.GitExample | poncho/src/poncho/package_create.py:94-121 | one git entry is cloned, `poncho` is created and its export line written |
| DataFetch.TarGzCommands | poncho/src/poncho/package_create.py:159-163 | if every command succeeds, a gzipped tarball with a free name runs the download to `<name>.tar.gz` and the extraction into `<name>`, leaving a file and a directory |
| DataFetch.HttpExample | poncho/src/poncho/package_create.py:159-163 | a tar+gzip entry runs the download to `<name>.tar.gz`, then the extraction into `<name>` |
| LocalInstall.CondaArgv | poncho/src/poncho/package_create.py:64-66 | `conda`, the command's words, `--prefix=<env>`, then the arguments |
| LocalInstall.CondaArgvOfWords | poncho/src/poncho/package_create.py:65 | a command of space-separated words contributes exactly those words |
| LocalInstall.PipVersion | poncho/src/poncho/package_create.py:130 | the version is the second field of the output; fewer than two fields raise IndexError |
| LocalInstall.PipVersionOfBanner | poncho/src/poncho/package_create.py:130 | on `pip <version> ...` the version read is `<version>` |
| LocalInstall.InstallArgv | poncho/src/poncho/package_create.py:131-134 | `conda run --prefix=<env> pip install`, then the in-tree-build option iff pip is older than 22.1, then the package path |
| LocalInstall.InstallLocalPip | poncho/src/poncho/package_create.py:124-134 | fails with IndexError iff pip's output has fewer than two fields, else installs with the version it reports |
| LocalInstall.InstallFromBanner | poncho/src/poncho/package_create.py:130-134 | on pip's banner, the install uses the in-tree-build option before the path iff the reported version is older |
| LocalInstall.InstallAll | poncho/src/poncho/package_create.py:48-50 | no packages means no commands; otherwise it fails with IndexError iff pip's output is too short; on success it returns the order it visited `pip_local` in, which names every package exactly once, and the i-th command installs the i-th name from its own path (`Installs`) |
| LocalInstall.InstallsAt | poncho/src/poncho/package_create.py:48-50 | the i-th install command uses the path of the i-th name |
| LocalInstall.InstallsEach | poncho/src/poncho/package_create.py:48-50 | every package of `pip_local` has an install command with its own path |

## Left out

- Reading the spec file and `json.load`: the model starts from the parsed top-level object. A
  top-level value that is not an object is not modelled.
- JSON numbers are integers only; floating point is not modelled.
- Running `pip list --editable`, `pip -V`, `git`, `curl`, `tar` and `gzip`. Their output is an
  input, or their exit status is a parameter. What a failed command leaves on disk is not
  modelled.
- `version.parse` (PEP 440 ordering) is a parameter of `InstallLocalPip`.
- `_run_conda_command`'s error path (`sys.exit(1)` with a printed log) is not modelled, because
  it is process exit and I/O. Only the argv lists are modelled, not running them.
- The rest of `pack_env` is not modelled: the temporary directory, `conda env create` and
  `conda_pack.pack`. Only the order of the steps in lines 38-42 and 48-50 is modelled.
- Logging text and order are not modelled. Warnings are modelled only as the set of packages
  warned about.
- Writing `conda_spec.yml` and `poncho/set_env` to disk: the model keeps the object written
  (`Written`) and the text of `set_env`. The content `set_env` had before the run is a
  parameter of the initial state.
- The directory is modelled by its top-level names only, so an entry name containing `/` is not
  modelled. The names `""`, `.` and `..` are modelled for `os.mkdir` only; what `git`, `curl`
  and `gzip` do with them is left to their exit status.
- A `git` or `http` section that is a non-empty list: Python indexes the list with each of its
  elements, which succeeds for in-range integers. The model raises TypeError for every non-empty
  list section, as Python does for a list of strings.
- CondaSpec.KeptReqs, CondaSpec.KeptDeps: their own contracts state only a length bound. What
  they keep is stated by the lemmas `KeptReqsSound`, `KeptReqsCount`, `KeptDepsSound`,
  `KeptDepsFrom`, `KeptDepsComplete`, `KeptDepsCount` and `KeptDepsClean`.
- LocalInstall.InstallAll: the order in which `pip_local` is visited is returned but not fixed.
  `pip_local` is built from a set, so Python's order for it is not determined by the spec.
