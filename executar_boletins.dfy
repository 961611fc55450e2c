/** executar_boletins.py: run a fixed list of six Jupyter notebooks, each in
    its own folder, after choosing the interpreter (possibly re-running the
    script under it once) and loading the base directory and kernel name. */
module Boletins {
  import opened Common
  import opened Paths

  const FinancasPython: string := "FINANCAS_PYTHON"
  const FinancasReexec: string := "FINANCAS_REEXEC"
  const BoletinsConfig: string := "BOLETINS_CONFIG"
  const BoletinsBaseDir: string := "BOLETINS_BASE_DIR"
  const KernelName: string := "KERNEL_NAME"
  const DefaultKernel: string := "python3"
  const TmpVenvPython: Path := "/tmp/financas-venv/bin/python"

  /** `_expand_no_resolve`: `expanduser`, then `expandvars`. */
  function ExpandNoResolve(ops: PathOps, p: string): Path {
    ops.expandVars(ops.expandUser(p))
  }

  /** `_expand`: the same, then `resolve`. */
  function Expand(ops: PathOps, p: string): Path {
    ops.resolve(ExpandNoResolve(ops, p))
  }

  // ---------------------------------------------------------------------
  // Interpreter resolution

  /** `_resolve_runner_python`: a non-empty FINANCAS_PYTHON whose expansion
      exists, else the venv outside the synchronised folder if it exists,
      else nothing. Whatever it yields exists. */
  function ResolveRunnerPython(env: Env, fs: set<Path>, ops: PathOps): (r: Option<Path>)
    ensures r.Some? ==> r.value in fs
    ensures r.None? <==>
      TmpVenvPython !in fs
      && !(Truthy(EnvGet(env, FinancasPython)) && ExpandNoResolve(ops, env[FinancasPython]) in fs)
  {
    var pyFromEnv := EnvGet(env, FinancasPython);
    if Truthy(pyFromEnv) && ExpandNoResolve(ops, pyFromEnv.value) in fs then
      Some(ExpandNoResolve(ops, pyFromEnv.value))
    else if TmpVenvPython in fs then Some(TmpVenvPython)
    else None
  }

  /** The candidates `_resolve_runner_python` tries, in order: the expanded
      override only when it is non-empty, then the venv interpreter. */
  function RunnerCandidates(env: Env, ops: PathOps): seq<Path> {
    (if Truthy(EnvGet(env, FinancasPython)) then [ExpandNoResolve(ops, env[FinancasPython])] else [])
    + [TmpVenvPython]
  }

  /** Resolution is the first-match-wins lookup over the candidates. */
  lemma ResolveRunnerPythonIsFirstMatch(env: Env, fs: set<Path>, ops: PathOps)
    ensures ResolveRunnerPython(env, fs, ops) == FirstExisting(RunnerCandidates(env, ops), fs)
  {
    var c := RunnerCandidates(env, ops);
    var tail := [TmpVenvPython];
    assert FirstExistingIndex(tail, fs) == if TmpVenvPython in fs then 0 else 1 by {
      assert tail[1..] == [];
    }
    if Truthy(EnvGet(env, FinancasPython)) {
      assert c == [ExpandNoResolve(ops, env[FinancasPython])] + tail;
      assert c[1..] == tail;
    } else {
      assert c == tail;
    }
  }

  /** Unlike the override of run_all.py, an empty FINANCAS_PYTHON counts as
      unset: it is never expanded, whatever its expansion would be. */
  lemma EmptyOverrideIsSkipped(env: Env, fs: set<Path>, ops: PathOps)
    requires FinancasPython in env && env[FinancasPython] == ""
    ensures ResolveRunnerPython(env, fs, ops) == if TmpVenvPython in fs then Some(TmpVenvPython) else None
  {
  }

  // ---------------------------------------------------------------------
  // Re-running under the preferred interpreter

  /** What `_maybe_reexec_with_runner_python` decides: go on in this
      process, or run `cmd` with `childEnv` and exit with its code. */
  datatype Bootstrap = Proceed | Reexec(cmd: seq<string>, childEnv: Env)

  /** `sys.argv[1:]`. */
  function ArgsAfterProgram(argv: seq<string>): seq<string> {
    if |argv| >= 1 then argv[1..] else []
  }

  /** The decision: no second re-run when FINANCAS_REEXEC is "1", none
      without a preferred interpreter, none when its absolute path is
      already the current interpreter's; otherwise the preferred launcher
      runs this file with the same arguments and FINANCAS_REEXEC set. */
  function ReexecDecision(env: Env, fs: set<Path>, ops: PathOps, sysExecutable: Path,
                          thisFile: Path, argv: seq<string>): (b: Bootstrap)
    ensures b.Reexec? <==>
      EnvGet(env, FinancasReexec) != Some("1")
      && ResolveRunnerPython(env, fs, ops).Some?
      && ops.absolute(ResolveRunnerPython(env, fs, ops).value) != ops.absolute(sysExecutable)
    ensures b.Reexec? ==>
      && b.childEnv == env[FinancasReexec := "1"]
      && |b.cmd| == 2 + |ArgsAfterProgram(argv)|
      && b.cmd[0] == ops.absolute(ResolveRunnerPython(env, fs, ops).value)
    ensures b.Reexec? ==> b.cmd[1] == ops.resolve(thisFile) && b.cmd[2..] == ArgsAfterProgram(argv)
  {
    if EnvGet(env, FinancasReexec) == Some("1") then Proceed
    else
      var preferred := ResolveRunnerPython(env, fs, ops);
      if preferred.None? then Proceed
      else
        var current := ops.absolute(sysExecutable);
        var preferredAbs := ops.absolute(preferred.value);
        if preferredAbs == current then Proceed
        else Reexec([preferredAbs, ops.resolve(thisFile)] + ArgsAfterProgram(argv), env[FinancasReexec := "1"])
  }

  /** The re-run happens at most once: the child, seeing the environment it
      was given, always goes on in its own process. */
  lemma ReexecOnce(env: Env, fs: set<Path>, ops: PathOps, sysExecutable: Path, thisFile: Path,
                   argv: seq<string>, fs': set<Path>, sysExecutable': Path, thisFile': Path, argv': seq<string>)
    requires ReexecDecision(env, fs, ops, sysExecutable, thisFile, argv).Reexec?
    ensures var child := ReexecDecision(env, fs, ops, sysExecutable, thisFile, argv).childEnv;
      ReexecDecision(child, fs', ops, sysExecutable', thisFile', argv') == Proceed
  {
  }

  // ---------------------------------------------------------------------
  // Platform and configuration file

  /** ASCII lower case of one character. */
  function LowerChar(c: char): char {
    if 'A' <= c <= 'Z' then (c as int + 32) as char else c
  }

  /** `str.lower()` over ASCII letters. */
  function Lower(s: string): (r: string)
    ensures |r| == |s|
    ensures forall k :: 0 <= k < |s| ==> r[k] == LowerChar(s[k])
  {
    seq(|s|, k requires 0 <= k < |s| => LowerChar(s[k]))
  }

  /** `str.startswith(prefix)`. */
  predicate StartsWith(s: string, prefix: string) {
    |prefix| <= |s| && s[..|prefix|] == prefix
  }

  /** `platform.system().lower()` starts with "darwin" or "mac". */
  predicate IsMac(system: string) {
    var l := Lower(system);
    StartsWith(l, "darwin") || StartsWith(l, "mac")
  }

  const MacIni: string := "executar_boletins_mac.ini"
  const LinuxIni: string := "executar_boletins_linux.ini"

  /** The file name `_default_config_path` picks: the macOS file on a Mac,
      the Linux file on Linux and on every other system. */
  function DefaultConfigName(system: string): string {
    if IsMac(system) then MacIni
    else if StartsWith(Lower(system), "linux") then LinuxIni
    else LinuxIni
  }

  /** `_default_config_path`: that file beside the script. */
  function DefaultConfigPath(system: string, thisFile: Path): Path {
    WithName(thisFile, DefaultConfigName(system))
  }

  lemma ConfigFileNamesArePlain()
    ensures '/' !in MacIni && '/' !in LinuxIni
  {
  }

  /** The default configuration is the platform's file, in the script's
      own folder: its name is the macOS file exactly on a Mac and the
      Linux file everywhere else, and its folder is the script's. */
  lemma DefaultConfigPathIsSibling(system: string, thisFile: Path)
    ensures Name(DefaultConfigPath(system, thisFile)) == (if IsMac(system) then MacIni else LinuxIni)
    ensures DefaultConfigPath(system, thisFile) == Join(Parent(thisFile), Name(DefaultConfigPath(system, thisFile)))
  {
    var name := DefaultConfigName(system);
    ConfigFileNamesArePlain();
    NameOfJoin(Parent(thisFile), name);
    NameOfPlain(name);
  }

  lemma DarwinIsMac()
    ensures IsMac("Darwin")
  {
    var l := Lower("Darwin");
    assert l[..6] == "darwin";
  }

  lemma LinuxIsNotMac()
    ensures !IsMac("Linux")
  {
    var l := Lower("Linux");
    assert |l| == 5 && l[0] == 'l';
    assert !StartsWith(l, "mac") by { assert l[..3][0] == 'l'; }
  }

  // ---------------------------------------------------------------------
  // `_load_config`

  /** One section of the configuration file, as `configparser` reads it. */
  type Section = map<string, string>

  /** A parsed configuration file: its sections by name. */
  type Ini = map<string, Section>

  datatype Config = Config(baseDir: Path, kernelName: string, configPath: Path)

  datatype ConfigError =
    | Unparsable(configPath: Path)
    | BaseDirMissing(baseDir: Path, configPath: Path)

  /** The fallback base directory for the platform. */
  function PlatformBaseDir(system: string): (d: string)
    ensures d != ""
  {
    if IsMac(system) then "~/Library/CloudStorage/OneDrive-Pessoal/Python/Financas"
    else "~/OneDrive/Python/Financas"
  }

  /** The configuration file: BOLETINS_CONFIG whenever it is set (even to
      ""), else the platform's default file; expanded and resolved. */
  function ConfigPath(env: Env, ops: PathOps, system: string, thisFile: Path): Path {
    Expand(ops, EnvGet(env, BoletinsConfig).GetOr(DefaultConfigPath(system, thisFile)))
  }

  /** `cfg.read(cfg_path)` when the file exists: `read` gives the parsed
      sections, or None when `configparser` raises on its contents. A
      missing file leaves the configuration empty. */
  function ReadIni(fs: set<Path>, read: Path -> Option<Ini>, cfgPath: Path): Option<Ini> {
    if cfgPath in fs then read(cfgPath) else Some(map[])
  }

  /** The `boletins` section, or an empty one. */
  function BoletinsSection(ini: Ini): Section {
    if "boletins" in ini then ini["boletins"] else map[]
  }

  /** The unexpanded base directory: a non-empty BOLETINS_BASE_DIR, else a
      non-empty `base_dir` of the section, else the platform default. It
      is never empty. */
  function BaseDirSetting(env: Env, section: Section, system: string): (d: string)
    ensures d != ""
    ensures Truthy(EnvGet(env, BoletinsBaseDir)) ==> d == env[BoletinsBaseDir]
    ensures !Truthy(EnvGet(env, BoletinsBaseDir)) && Truthy(EnvGet(section, "base_dir")) ==> d == section["base_dir"]
    ensures !Truthy(EnvGet(env, BoletinsBaseDir)) && !Truthy(EnvGet(section, "base_dir")) ==> d == PlatformBaseDir(system)
  {
    var fromEnv := EnvGet(env, BoletinsBaseDir);
    var chosen := if Truthy(fromEnv) then fromEnv else EnvGet(section, "base_dir");
    if Truthy(chosen) then chosen.value else PlatformBaseDir(system)
  }

  /** The kernel name: a non-empty KERNEL_NAME, else the section's
      `kernel_name` whenever it is present (even ""), else "python3". */
  function KernelSetting(env: Env, section: Section): (k: string)
    ensures Truthy(EnvGet(env, KernelName)) ==> k == env[KernelName]
    ensures !Truthy(EnvGet(env, KernelName)) && "kernel_name" in section ==> k == section["kernel_name"]
    ensures !Truthy(EnvGet(env, KernelName)) && "kernel_name" !in section ==> k == DefaultKernel
  {
    var fromEnv := EnvGet(env, KernelName);
    if Truthy(fromEnv) then fromEnv.value else EnvGet(section, "kernel_name").GetOr(DefaultKernel)
  }

  /** `_load_config`. An unparsable file and a base directory that does not
      exist are the two errors; on success the base directory exists. */
  function LoadConfig(env: Env, fs: set<Path>, ops: PathOps, system: string, thisFile: Path,
                      read: Path -> Option<Ini>): (r: Result<Config, ConfigError>)
    ensures r.Ok? ==> r.value.baseDir in fs
    ensures r.Ok? ==> r.value.configPath == ConfigPath(env, ops, system, thisFile)
  {
    var cfgPath := ConfigPath(env, ops, system, thisFile);
    var ini := ReadIni(fs, read, cfgPath);
    if ini.None? then Err(Unparsable(cfgPath))
    else
      var section := BoletinsSection(ini.value);
      var baseDir := Expand(ops, BaseDirSetting(env, section, system));
      var kernelName := KernelSetting(env, section);
      if baseDir !in fs then Err(BaseDirMissing(baseDir, cfgPath))
      else Ok(Config(baseDir, kernelName, cfgPath))
  }

  /** Loading fails exactly when the existing configuration file cannot be
      parsed or the chosen base directory, expanded, does not exist; on
      success the base directory and kernel follow the priorities. */
  lemma LoadConfigOutcome(env: Env, fs: set<Path>, ops: PathOps, system: string, thisFile: Path,
                          read: Path -> Option<Ini>)
    ensures var cfgPath := ConfigPath(env, ops, system, thisFile);
      var ini := ReadIni(fs, read, cfgPath);
      var r := LoadConfig(env, fs, ops, system, thisFile, read);
      && (r.Err? <==> ini.None? || Expand(ops, BaseDirSetting(env, BoletinsSection(ini.value), system)) !in fs)
      && (r.Ok? ==>
            && r.value.baseDir == Expand(ops, BaseDirSetting(env, BoletinsSection(ini.value), system))
            && r.value.kernelName == KernelSetting(env, BoletinsSection(ini.value)))
  {
  }

  /** When both variables are set and non-empty, the file's contents do not
      matter: any two readings that parse give the same configuration. */
  lemma EnvironmentOverridesFile(env: Env, fs: set<Path>, ops: PathOps, system: string, thisFile: Path,
                                 read1: Path -> Option<Ini>, read2: Path -> Option<Ini>)
    requires Truthy(EnvGet(env, BoletinsBaseDir)) && Truthy(EnvGet(env, KernelName))
    requires ReadIni(fs, read1, ConfigPath(env, ops, system, thisFile)).Some?
    requires ReadIni(fs, read2, ConfigPath(env, ops, system, thisFile)).Some?
    ensures LoadConfig(env, fs, ops, system, thisFile, read1) == LoadConfig(env, fs, ops, system, thisFile, read2)
  {
  }

  /** An empty `kernel_name` in the file is kept as the empty name: only
      the environment value is tested for emptiness. */
  lemma EmptySectionKernelIsKept(env: Env, section: Section)
    requires !Truthy(EnvGet(env, KernelName))
    requires "kernel_name" in section && section["kernel_name"] == ""
    ensures KernelSetting(env, section) == ""
  {
  }

  // ---------------------------------------------------------------------
  // The notebook list

  /** The folder and the file name of each notebook, in execution order. */
  const NotebookDirs: seq<string> :=
    ["00_Boletim_Diario", "00_Boletim_Diario", "00_Drawdown", "00_MACD", "00_MACD",
     "00_Rentatibilidade_Historica"]
  const NotebookFiles: seq<string> :=
    ["Setups_Diarios_B3.ipynb", "Setups_Diarios_Fix_v5.ipynb", "drawdown_monitor.ipynb",
     "MACD_diario_B3.ipynb", "MACD_semanal_B3.ipynb", "rentabilidade_historica.ipynb"]

  /** `_build_notebook_list`: `base_dir / "dir/file"` for each entry. */
  function BuildNotebookList(baseDir: Path): (nbs: seq<Path>)
    ensures |nbs| == |NotebookFiles| == 6
  {
    seq(|NotebookFiles|, i requires 0 <= i < |NotebookFiles| => Join(baseDir, NotebookDirs[i] + "/" + NotebookFiles[i]))
  }

  lemma NotebookFileNamesArePlain(i: nat)
    requires i < |NotebookFiles|
    ensures '/' !in NotebookFiles[i] && NotebookFiles[i] != []
  {
  }

  /** `prefix/file` names `file`, and its parent is `prefix`. */
  lemma ParentOfChild(prefix: Path, file: string)
    requires '/' !in file && file != [] && prefix != []
    ensures Name(prefix + "/" + file) == file
    ensures Parent(prefix + "/" + file) == prefix
  {
    var p := prefix + "/" + file;
    NameOfConcat(prefix + "/", file);
    NameSnoc(prefix, '/');
    assert p[..|p| - |file| - 1] == prefix;
  }

  /** A file under a folder under `base`: its name is the file, and its
      parent is the folder joined to `base`. */
  lemma FileUnderFolder(base: Path, dir: string, file: string)
    requires '/' !in file && file != [] && dir != []
    ensures Name(Join(base, dir + "/" + file)) == file
    ensures Parent(Join(base, dir + "/" + file)) == Join(base, dir)
  {
    var folder := Join(base, dir);
    assert Join(base, dir + "/" + file) == folder + "/" + file;
    ParentOfChild(folder, file);
  }

  /** Each of the six notebooks has its own file name and sits in its own
      folder under the base directory. */
  lemma NotebookLocation(baseDir: Path, i: nat)
    requires i < |NotebookFiles|
    ensures Name(BuildNotebookList(baseDir)[i]) == NotebookFiles[i]
    ensures Parent(BuildNotebookList(baseDir)[i]) == Join(baseDir, NotebookDirs[i])
  {
    NotebookFileNamesArePlain(i);
    FileUnderFolder(baseDir, NotebookDirs[i], NotebookFiles[i]);
  }

  /** The six notebooks are six different paths. */
  lemma NotebooksDistinct(baseDir: Path, i: nat, j: nat)
    requires i < j < |NotebookFiles|
    ensures BuildNotebookList(baseDir)[i] != BuildNotebookList(baseDir)[j]
  {
    NotebookLocation(baseDir, i);
    NotebookLocation(baseDir, j);
    NotebookFilesDistinct(i, j);
  }

  lemma NotebookFilesDistinct(i: nat, j: nat)
    requires i < j < |NotebookFiles|
    ensures NotebookFiles[i] != NotebookFiles[j]
  {
    var f := NotebookFiles;
    assert |f[0]| == 23 && |f[1]| == 27 && |f[2]| == 22 && |f[3]| == 20 && |f[4]| == 21 && |f[5]| == 29;
  }

  // ---------------------------------------------------------------------
  // Dependency and kernel checks

  /** The two kinds of failure `main` turns into exit code 2 around the
      notebook run: `ModuleNotFoundError` and `RuntimeError`. */
  datatype Fault = ModuleNotFound | Runtime

  /** What the checks see of the interpreter: whether papermill and
      jupyter_client can be imported, and the registered kernel names. */
  datatype Deps = Deps(papermill: bool, jupyterClient: bool, kernelSpecs: set<string>)

  /** `_import_papermill`, then `_validate_kernel`: papermill missing is a
      `ModuleNotFoundError`; jupyter_client missing or an unknown kernel is
      a `RuntimeError`. */
  function Preflight(deps: Deps, kernelName: string): (f: Option<Fault>)
    ensures f.None? <==> deps.papermill && deps.jupyterClient && kernelName in deps.kernelSpecs
    ensures f == Some(ModuleNotFound) <==> !deps.papermill
  {
    if !deps.papermill then Some(ModuleNotFound)
    else if !deps.jupyterClient then Some(Runtime)
    else if kernelName !in deps.kernelSpecs then Some(Runtime)
    else None
  }

  // ---------------------------------------------------------------------
  // The notebook sequence, as a specification

  /** One call of `pm.execute_notebook`, with the working directory it
      ran in. */
  datatype Execution = Execution(input: Path, output: Path, kernelName: string, logOutput: bool, cwd: Path)

  /** The keyword arguments of `executar_notebooks`. */
  datatype Options = Options(kernelName: string, verbose: bool, stopOnError: bool)

  /** What the run depends on and does not control: which paths exist,
      which notebooks raise when executed, the name of the n-th temporary
      file, and which temporary files cannot be deleted. */
  datatype NotebookWorld = NotebookWorld(
    fs: set<Path>,
    raises: Path -> bool,
    tempName: nat -> Path,
    unlinkFails: Path -> bool)

  /** A notebook is executed only when it and its folder exist. */
  predicate Runnable(w: NotebookWorld, nb: Path) {
    nb in w.fs && Parent(nb) in w.fs
  }

  /** The failure code one notebook contributes: 2 when it or its folder is
      missing, 1 when its execution raises, 0 when it succeeds. */
  function Code(w: NotebookWorld, nb: Path): int {
    if !Runnable(w, nb) then 2 else if w.raises(nb) then 1 else 0
  }

  /** The state of a run: the return code so far, the executions, the
      temporary files left on disk, how many were created, and whether
      the run returned early. */
  datatype Trace = Trace(rc: int, executed: seq<Execution>, temps: set<Path>, created: nat, stopped: bool)

  /** One iteration of the loop of `executar_notebooks`. */
  function Visit(w: NotebookWorld, opts: Options, t: Trace, nb: Path): Trace {
    if !Runnable(w, nb) then t.(rc := 2)
    else
      var output := w.tempName(t.created);
      var raised := w.raises(nb);
      Trace(if raised then 1 else t.rc,
            t.executed + [Execution(nb, output, opts.kernelName, opts.verbose, Parent(nb))],
            if w.unlinkFails(output) then t.temps + {output} else t.temps - {output},
            t.created + 1,
            raised && opts.stopOnError)
  }

  /** The loop: visit the notebooks in order until one asks to stop. */
  function Run(w: NotebookWorld, opts: Options, t: Trace, nbs: seq<Path>): Trace
    decreases |nbs|
  {
    if nbs == [] then t
    else
      var t' := Visit(w, opts, t, nbs[0]);
      if t'.stopped then t' else Run(w, opts, t', nbs[1..])
  }

  /** How many notebooks the loop visits: up to and including the first
      that raises under `stop_on_error`, else all of them. */
  function Visited(w: NotebookWorld, opts: Options, nbs: seq<Path>): (n: nat)
    ensures n <= |nbs|
  {
    if nbs == [] then 0
    else if opts.stopOnError && Code(w, nbs[0]) == 1 then 1
    else 1 + Visited(w, opts, nbs[1..])
  }

  /** The notebooks of `nbs` that are executed, in order. */
  function Runnables(w: NotebookWorld, nbs: seq<Path>): seq<Path> {
    if nbs == [] then []
    else (if Runnable(w, nbs[0]) then [nbs[0]] else []) + Runnables(w, nbs[1..])
  }

  /** The input notebook of each execution. */
  function Inputs(es: seq<Execution>): (r: seq<Path>)
    ensures |r| == |es|
    ensures forall i :: 0 <= i < |es| ==> r[i] == es[i].input
  {
    seq(|es|, i requires 0 <= i < |es| => es[i].input)
  }

  /** The return code is 0 exactly when it started at 0 and every
      notebook of the list exists, has its folder and runs without
      raising; it stays in {0, 1, 2}. */
  lemma {:induction false} RunRcZeroIff(w: NotebookWorld, opts: Options, t: Trace, nbs: seq<Path>)
    requires !t.stopped
    ensures Run(w, opts, t, nbs).rc == 0 <==> t.rc == 0 && forall j :: 0 <= j < |nbs| ==> Code(w, nbs[j]) == 0
    ensures t.rc in {0, 1, 2} ==> Run(w, opts, t, nbs).rc in {0, 1, 2}
    decreases |nbs|
  {
    if nbs != [] {
      var t' := Visit(w, opts, t, nbs[0]);
      if !t'.stopped {
        RunRcZeroIff(w, opts, t', nbs[1..]);
        assert forall j :: 1 <= j < |nbs| ==> nbs[j] == nbs[1..][j - 1];
      }
    }
  }

  /** The failure codes of a list of notebooks. */
  function Codes(w: NotebookWorld, nbs: seq<Path>): (cs: seq<int>)
    ensures |cs| == |nbs|
    ensures forall j :: 0 <= j < |nbs| ==> cs[j] == Code(w, nbs[j])
  {
    seq(|nbs|, j requires 0 <= j < |nbs| => Code(w, nbs[j]))
  }

  /** How `rc` evolves over a sequence of failure codes: every non-zero
      code replaces it, a zero leaves it. */
  function FoldRc(rc: int, cs: seq<int>): int
    decreases |cs|
  {
    if cs == [] then rc
    else FoldRc(if cs[0] != 0 then cs[0] else rc, cs[1..])
  }

  lemma {:induction false} FoldRcSnoc(rc: int, cs: seq<int>, c: int)
    ensures FoldRc(rc, cs + [c]) == if c != 0 then c else FoldRc(rc, cs)
    decreases |cs|
  {
    if cs == [] {
      assert ([] + [c])[1..] == [];
    } else {
      assert (cs + [c])[1..] == cs[1..] + [c];
      FoldRcSnoc(if cs[0] != 0 then cs[0] else rc, cs[1..], c);
    }
  }

  /** The folded code is the last non-zero code, or the start when all
      codes are zero. */
  lemma {:induction false} FoldRcIsLastFailure(rc: int, cs: seq<int>)
    ensures (forall j :: 0 <= j < |cs| ==> cs[j] == 0) ==> FoldRc(rc, cs) == rc
    ensures forall k :: 0 <= k < |cs| && cs[k] != 0 && (forall j :: k < j < |cs| ==> cs[j] == 0) ==>
      FoldRc(rc, cs) == cs[k]
    decreases |cs|
  {
    if cs != [] {
      var init, c := cs[..|cs| - 1], cs[|cs| - 1];
      assert cs == init + [c];
      FoldRcSnoc(rc, init, c);
      FoldRcIsLastFailure(rc, init);
      assert forall j :: 0 <= j < |init| ==> init[j] == cs[j];
    }
  }

  /** The run's return code folds the codes of the visited notebooks. */
  lemma {:induction false} RunRcFolds(w: NotebookWorld, opts: Options, t: Trace, nbs: seq<Path>)
    requires !t.stopped
    ensures Run(w, opts, t, nbs).rc == FoldRc(t.rc, Codes(w, nbs[..Visited(w, opts, nbs)]))
    decreases |nbs|
  {
    if nbs != [] {
      var t' := Visit(w, opts, t, nbs[0]);
      var n := Visited(w, opts, nbs);
      var cs := Codes(w, nbs[..n]);
      assert cs[0] == Code(w, nbs[0]);
      if t'.stopped {
        assert cs[1..] == [];
      } else {
        var rest := nbs[1..];
        RunRcFolds(w, opts, t', rest);
        assert nbs[..n][1..] == rest[..n - 1];
        assert cs[1..] == Codes(w, rest[..n - 1]);
      }
    }
  }

  /** The return code is that of the most recent failure among the
      visited notebooks, and the starting code when none failed: a later
      success never resets it. */
  lemma RunRcIsLastFailure(w: NotebookWorld, opts: Options, t: Trace, nbs: seq<Path>)
    requires !t.stopped
    ensures var n := Visited(w, opts, nbs);
      (forall j :: 0 <= j < n ==> Code(w, nbs[j]) == 0) ==> Run(w, opts, t, nbs).rc == t.rc
    ensures var n := Visited(w, opts, nbs);
      forall k :: 0 <= k < n && Code(w, nbs[k]) != 0 && (forall j :: k < j < n ==> Code(w, nbs[j]) == 0) ==>
        Run(w, opts, t, nbs).rc == Code(w, nbs[k])
  {
    var n := Visited(w, opts, nbs);
    RunRcFolds(w, opts, t, nbs);
    var cs := Codes(w, nbs[..n]);
    FoldRcIsLastFailure(t.rc, cs);
    assert forall j :: 0 <= j < n ==> cs[j] == Code(w, nbs[j]);
  }

  /** Under `stop_on_error`, the run returns 1 right after the first
      notebook that raises, and nothing after it is visited. */
  lemma {:induction false} StopOnErrorStopsAtFirstRaise(w: NotebookWorld, opts: Options, t: Trace, nbs: seq<Path>, k: nat)
    requires !t.stopped && opts.stopOnError
    requires k < |nbs| && Code(w, nbs[k]) == 1
    requires forall j :: 0 <= j < k ==> Code(w, nbs[j]) != 1
    ensures Visited(w, opts, nbs) == k + 1
    ensures Run(w, opts, t, nbs).stopped && Run(w, opts, t, nbs).rc == 1
    decreases k
  {
    if k > 0 {
      var t' := Visit(w, opts, t, nbs[0]);
      assert Code(w, nbs[0]) != 1;
      StopOnErrorStopsAtFirstRaise(w, opts, t', nbs[1..], k - 1);
    }
  }

  /** Without `stop_on_error` (or when nothing raises), every notebook is
      visited and the run never returns early. */
  lemma {:induction false} VisitsAll(w: NotebookWorld, opts: Options, t: Trace, nbs: seq<Path>)
    requires !t.stopped
    requires !opts.stopOnError || forall j :: 0 <= j < |nbs| ==> Code(w, nbs[j]) != 1
    ensures Visited(w, opts, nbs) == |nbs|
    ensures !Run(w, opts, t, nbs).stopped
    decreases |nbs|
  {
    if nbs != [] {
      var t' := Visit(w, opts, t, nbs[0]);
      assert Code(w, nbs[0]) != 1 || !opts.stopOnError;
      assert forall j :: 1 <= j < |nbs| ==> nbs[j] == nbs[1..][j - 1];
      VisitsAll(w, opts, t', nbs[1..]);
    }
  }

  /** The executions only grow, and the new ones are exactly the runnable
      notebooks among those visited, in order, one temporary file each. */
  lemma {:induction false} RunExecutesRunnables(w: NotebookWorld, opts: Options, t: Trace, nbs: seq<Path>)
    requires !t.stopped
    ensures var r := Run(w, opts, t, nbs);
      && |t.executed| <= |r.executed| && r.executed[..|t.executed|] == t.executed
      && Inputs(r.executed[|t.executed|..]) == Runnables(w, nbs[..Visited(w, opts, nbs)])
      && r.created == t.created + |r.executed| - |t.executed|
    decreases |nbs|
  {
    if nbs != [] {
      var t' := Visit(w, opts, t, nbs[0]);
      var n := Visited(w, opts, nbs);
      var r := Run(w, opts, t, nbs);
      if t'.stopped {
        assert n == 1 && nbs[..1] == [nbs[0]];
        assert Runnables(w, [nbs[0]]) == [nbs[0]] by {
          assert [nbs[0]][1..] == [];
        }
        assert r.executed[|t.executed|..] == [r.executed[|t.executed|]];
      } else {
        var rest := nbs[1..];
        RunExecutesRunnables(w, opts, t', rest);
        var n' := Visited(w, opts, rest);
        assert n == 1 + n';
        assert nbs[..n] == [nbs[0]] + rest[..n'];
        assert nbs[..n][1..] == rest[..n'];
        var head := if Runnable(w, nbs[0]) then [nbs[0]] else [];
        assert Runnables(w, nbs[..n]) == head + Runnables(w, rest[..n']);
        assert r.executed[..|t'.executed|] == t'.executed;
        assert r.executed[|t.executed|..] == t'.executed[|t.executed|..] + r.executed[|t'.executed|..];
        assert Inputs(t'.executed[|t.executed|..]) == head;
        assert Inputs(r.executed[|t.executed|..]) == Inputs(t'.executed[|t.executed|..]) + Inputs(r.executed[|t'.executed|..]);
      }
    }
  }

  /** Every notebook that is executed exists and has its folder; it runs
      with that folder as working directory, with the requested kernel
      and log setting. */
  lemma {:induction false} ExecutionsRunInTheirFolder(w: NotebookWorld, opts: Options, t: Trace, nbs: seq<Path>)
    requires !t.stopped
    ensures var r := Run(w, opts, t, nbs);
      forall i :: |t.executed| <= i < |r.executed| ==>
        && Runnable(w, r.executed[i].input)
        && r.executed[i].cwd == Parent(r.executed[i].input)
        && r.executed[i].kernelName == opts.kernelName
        && r.executed[i].logOutput == opts.verbose
    decreases |nbs|
  {
    RunExecutesRunnables(w, opts, t, nbs);
    if nbs != [] {
      var t' := Visit(w, opts, t, nbs[0]);
      if !t'.stopped {
        ExecutionsRunInTheirFolder(w, opts, t', nbs[1..]);
        RunExecutesRunnables(w, opts, t', nbs[1..]);
      }
    }
  }

  /** Deleting temporary files is best effort: whether each deletion fails
      changes neither the return code, nor the executions, nor where the
      run stops. */
  lemma {:induction false} UnlinkFailuresDoNotMatter(w: NotebookWorld, fails: Path -> bool, opts: Options,
                                                     t1: Trace, t2: Trace, nbs: seq<Path>)
    requires t1.(temps := {}) == t2.(temps := {})
    ensures var r1 := Run(w, opts, t1, nbs);
      var r2 := Run(w.(unlinkFails := fails), opts, t2, nbs);
      r1.(temps := {}) == r2.(temps := {})
    decreases |nbs|
  {
    if nbs != [] {
      var w2 := w.(unlinkFails := fails);
      var v1 := Visit(w, opts, t1, nbs[0]);
      var v2 := Visit(w2, opts, t2, nbs[0]);
      assert Runnable(w, nbs[0]) == Runnable(w2, nbs[0]);
      assert v1.(temps := {}) == v2.(temps := {});
      if !v1.stopped {
        UnlinkFailuresDoNotMatter(w, fails, opts, v1, v2, nbs[1..]);
      }
    }
  }

  /** A temporary file is left behind only when its deletion failed. */
  lemma {:induction false} LeftoverTempsFailedToUnlink(w: NotebookWorld, opts: Options, t: Trace, nbs: seq<Path>)
    ensures forall p :: p in Run(w, opts, t, nbs).temps && p !in t.temps ==> w.unlinkFails(p)
    decreases |nbs|
  {
    if nbs != [] {
      var t' := Visit(w, opts, t, nbs[0]);
      if !t'.stopped {
        LeftoverTempsFailedToUnlink(w, opts, t', nbs[1..]);
      }
    }
  }

  // ---------------------------------------------------------------------
  // List mode

  /** One line of `--list`: "OK  " or "MISS", a space, then the path. */
  function ListingLine(nb: Path, fs: set<Path>): string {
    (if nb in fs then "OK  " else "MISS") + " " + nb
  }

  /** What a listing line says: whether the notebook exists, and which. */
  datatype ListingEntry = ListingEntry(present: bool, notebook: Path)

  /** Reading a listing line back. */
  function ParseListingLine(line: string): Option<ListingEntry> {
    if |line| < 5 || line[4] != ' ' then None
    else if line[..4] == "OK  " then Some(ListingEntry(true, line[5..]))
    else if line[..4] == "MISS" then Some(ListingEntry(false, line[5..]))
    else None
  }

  /** Every listing line reads back as its notebook and whether it exists. */
  lemma ListingLineRoundTrip(nb: Path, fs: set<Path>)
    ensures ParseListingLine(ListingLine(nb, fs)) == Some(ListingEntry(nb in fs, nb))
  {
    var line := ListingLine(nb, fs);
    var tag := if nb in fs then "OK  " else "MISS";
    assert line == tag + (" " + nb);
    assert line[..4] == tag;
    assert line[5..] == nb;
  }

  /** The loop of list mode: one line per notebook, in order. */
  method ListNotebooks(notebooks: seq<Path>, fs: set<Path>) returns (lines: seq<string>)
    ensures |lines| == |notebooks|
    ensures forall i :: 0 <= i < |notebooks| ==>
      ParseListingLine(lines[i]) == Some(ListingEntry(notebooks[i] in fs, notebooks[i]))
  {
    lines := [];
    for i := 0 to |notebooks|
      invariant |lines| == i
      invariant forall j :: 0 <= j < i ==>
        ParseListingLine(lines[j]) == Some(ListingEntry(notebooks[j] in fs, notebooks[j]))
    {
      ListingLineRoundTrip(notebooks[i], fs);
      lines := lines + [ListingLine(notebooks[i], fs)];
    }
  }

  // ---------------------------------------------------------------------
  // The process

  /** How `executar_notebooks` ends: it returns a code, or a check before
      the loop raises. */
  datatype Outcome = Returned(rc: int) | Raised(fault: Fault)

  /** The flags `argparse` yields. */
  datatype Args = Args(list: bool, dryRun: bool, verbose: bool, stopOnError: bool)

  /** Everything `main` takes from outside: the environment, the path
      operations, `platform.system()`, `__file__`, `sys.executable`,
      `sys.argv`, the configuration reader, the installed dependencies,
      the exit code of a re-run child, and the notebooks' world. */
  datatype Host = Host(
    env: Env,
    ops: PathOps,
    system: string,
    thisFile: Path,
    sysExecutable: Path,
    argv: seq<string>,
    read: Path -> Option<Ini>,
    deps: Deps,
    childExit: (seq<string>, Env) -> int,
    world: NotebookWorld)

  function HostBootstrap(h: Host): Bootstrap {
    ReexecDecision(h.env, h.world.fs, h.ops, h.sysExecutable, h.thisFile, h.argv)
  }

  function HostConfig(h: Host): Result<Config, ConfigError> {
    LoadConfig(h.env, h.world.fs, h.ops, h.system, h.thisFile, h.read)
  }

  /** The running process: its working directory, the temporary files on
      disk, how many it created, and the notebook executions so far. */
  class Process {
    var cwd: Path
    var temps: set<Path>
    var created: nat
    var executed: seq<Execution>

    constructor (cwd0: Path)
      ensures cwd == cwd0 && temps == {} && created == 0 && executed == []
    {
      cwd, temps, created, executed := cwd0, {}, 0, [];
    }

    /** `os.chdir`. */
    method Chdir(dir: Path)
      modifies this`cwd
      ensures cwd == dir
    {
      cwd := dir;
    }

    /** `tempfile.NamedTemporaryFile(suffix=".ipynb", delete=False)`. */
    method NewTemp(w: NotebookWorld) returns (p: Path)
      modifies this`temps, this`created
      ensures p == w.tempName(old(created))
      ensures temps == old(temps) + {p} && created == old(created) + 1
    {
      p := w.tempName(created);
      temps := temps + {p};
      created := created + 1;
    }

    /** `output_nb.unlink(missing_ok=True)` inside `try: ... except
        Exception: pass`: the file stays when deleting it fails. */
    method Unlink(w: NotebookWorld, p: Path)
      modifies this`temps
      ensures temps == if w.unlinkFails(p) then old(temps) else old(temps) - {p}
    {
      if !w.unlinkFails(p) {
        temps := temps - {p};
      }
    }

    /** `pm.execute_notebook` in the current working directory: whether it
        raised. */
    method ExecuteNotebook(w: NotebookWorld, input: Path, output: Path, opts: Options) returns (raised: bool)
      modifies this`executed
      ensures executed == old(executed) + [Execution(input, output, opts.kernelName, opts.verbose, cwd)]
      ensures raised == w.raises(input)
    {
      executed := executed + [Execution(input, output, opts.kernelName, opts.verbose, cwd)];
      raised := w.raises(input);
    }

    /** `executar_notebooks`. The working directory is the same on every
        way out; the rest of the state is what the specification run
        gives. */
    method ExecutarNotebooks(w: NotebookWorld, deps: Deps, notebooks: seq<Path>, opts: Options) returns (out: Outcome)
      modifies this`cwd, this`temps, this`created, this`executed
      ensures cwd == old(cwd)
      ensures Preflight(deps, opts.kernelName).Some? ==>
        && out == Raised(Preflight(deps, opts.kernelName).value)
        && temps == old(temps) && created == old(created) && executed == old(executed)
      ensures Preflight(deps, opts.kernelName).None? ==>
        var r := Run(w, opts, Trace(0, old(executed), old(temps), old(created), false), notebooks);
        out == Returned(r.rc) && executed == r.executed && temps == r.temps && created == r.created
    {
      var fault := Preflight(deps, opts.kernelName);
      if fault.Some? {
        return Raised(fault.value);
      }
      var diretorioOriginal := cwd;
      var rc := 0;
      ghost var start := Trace(0, executed, temps, created, false);
      var i := 0;
      while i < |notebooks|
        invariant 0 <= i <= |notebooks|
        invariant cwd == diretorioOriginal
        invariant Run(w, opts, start, notebooks) == Run(w, opts, Trace(rc, executed, temps, created, false), notebooks[i..])
      {
        var nb := notebooks[i];
        ghost var before := Trace(rc, executed, temps, created, false);
        assert notebooks[i..][0] == nb && notebooks[i..][1..] == notebooks[i + 1..];
        if nb !in w.fs {
          rc := 2;
        } else {
          var dirNotebook := Parent(nb);
          if dirNotebook !in w.fs {
            rc := 2;
          } else {
            var outputNb := NewTemp(w);
            Chdir(dirNotebook);
            var raised := ExecuteNotebook(w, nb, outputNb, opts);
            if raised {
              rc := 1;
            }
            Unlink(w, outputNb);
            Chdir(diretorioOriginal);
            if raised && opts.stopOnError {
              assert Trace(rc, executed, temps, created, true) == Visit(w, opts, before, nb);
              return Returned(rc);
            }
          }
        }
        assert Trace(rc, executed, temps, created, false) == Visit(w, opts, before, nb);
        i := i + 1;
      }
      return Returned(rc);
    }

    /** `main`: re-run under the preferred interpreter and exit with the
        child's code; 2 when the configuration fails; in list mode one line
        per notebook and 0, executing nothing; otherwise the code of the
        notebook run, or 2 when a dependency or the kernel is missing. */
    method ExecutarBoletins(h: Host, args: Args) returns (code: int, listing: seq<string>)
      modifies this`cwd, this`temps, this`created, this`executed
      ensures cwd == old(cwd)
      ensures HostBootstrap(h).Reexec? ==>
        && code == h.childExit(HostBootstrap(h).cmd, HostBootstrap(h).childEnv)
        && listing == [] && executed == old(executed) && temps == old(temps) && created == old(created)
      ensures HostBootstrap(h).Proceed? && HostConfig(h).Err? ==>
        code == 2 && listing == [] && executed == old(executed) && temps == old(temps) && created == old(created)
      ensures HostBootstrap(h).Proceed? && HostConfig(h).Ok? && (args.list || args.dryRun) ==>
        var nbs := BuildNotebookList(HostConfig(h).value.baseDir);
        && code == 0 && |listing| == |nbs|
        && (forall i :: 0 <= i < |nbs| ==> ParseListingLine(listing[i]) == Some(ListingEntry(nbs[i] in h.world.fs, nbs[i])))
        && executed == old(executed) && temps == old(temps) && created == old(created)
      ensures HostBootstrap(h).Proceed? && HostConfig(h).Ok? && !(args.list || args.dryRun) ==>
        var cfg := HostConfig(h).value;
        var opts := Options(cfg.kernelName, args.verbose, args.stopOnError);
        var r := Run(h.world, opts, Trace(0, old(executed), old(temps), old(created), false), BuildNotebookList(cfg.baseDir));
        && listing == []
        && (Preflight(h.deps, cfg.kernelName).Some? ==>
              code == 2 && executed == old(executed) && temps == old(temps) && created == old(created))
        && (Preflight(h.deps, cfg.kernelName).None? ==>
              code == r.rc && executed == r.executed && temps == r.temps && created == r.created)
    {
      listing := [];
      var boot := HostBootstrap(h);
      if boot.Reexec? {
        return h.childExit(boot.cmd, boot.childEnv), [];
      }
      var cfg := HostConfig(h);
      if cfg.Err? {
        return 2, [];
      }
      var notebooks := BuildNotebookList(cfg.value.baseDir);
      if args.list || args.dryRun {
        listing := ListNotebooks(notebooks, h.world.fs);
        return 0, listing;
      }
      var out := ExecutarNotebooks(h.world, h.deps, notebooks, Options(cfg.value.kernelName, args.verbose, args.stopOnError));
      match out
      case Raised(_) => code := 2;
      case Returned(rc) => code := rc;
    }
  }
}
