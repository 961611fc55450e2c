# Notebook and script runners, modelled in Dafny

The repository automates a daily routine of market reports with two
sequential runners:

- `executar_boletins.py` runs a fixed list of six Jupyter notebooks through
  papermill. Before that it may re-run itself once under a preferred
  interpreter, and it loads the base directory and the kernel name from the
  environment, a per-platform INI file or built-in defaults. Each notebook
  runs in its own folder, and the process working directory is restored
  afterwards. The return code records the most recent failure. With
  `--stop-on-error` the run stops at the first notebook that raises. With
  `--list`/`--dry-run` it only lists the notebooks.
- `run_all.py` runs five Python scripts in order. Each script writes to its
  own log file, named after a timestamp and a slug of the script's file
  name. The log gets a four-line header and the script's output. As the
  code is written, the header reaches the file after the output (see
  "## Findings"). The run always stops at the first script that exits
  non-zero, and it returns that code.

The model has four modules:

- `Common` (common.dfy): options, results, the environment map, Python
  truthiness, the opaque path operations, and a first-match-wins lookup.
- `Paths` (paths.dfy): the part of `pathlib` the runners use, over
  normalised POSIX path text: `name`, `stem`, `parent`, `/` and
  `with_name`.
- `RunAll` (run_all.dfy): `run_all.py`. There is a specification fold
  `FailFast` over a `Report` (last code, log files, children started), and
  a class `Orchestrator` whose methods start the children and write the
  logs. Header writes go to the file object's buffer (`pending`), while a
  child writes straight to the file. The fail-fast loop `RunAllScripts` is proved equal to
  `FailFast`.
- `Boletins` (executar_boletins.dfy): `executar_boletins.py`. There is a
  specification fold `Run` over a `Trace` (code, executions, temporary
  files left, files created, early stop), and a class `Process` whose
  working directory, temporary files and executions are fields. The loop
  `ExecutarNotebooks` is proved equal to `Run`, and it restores the working
  directory on every way out.

The model's inputs:

- The filesystem is an immutable set of existing paths.
- `os.environ` is a map.
- `expanduser`, `expandvars`, `resolve` and `absolute` are opaque functions
  (`PathOps`).
- The rest of the outside world is a set of oracles:
  - a child script's output and exit code;
  - whether executing a notebook raises;
  - the name of the n-th temporary file;
  - whether deleting a temporary file fails;
  - the parsed INI file, or a parse error;
  - the installed dependencies and kernels;
  - the exit code of a re-run child.
- The `argparse` flags, `platform.system()`, `sys.executable`, `sys.argv`,
  `__file__` and the timestamp are parameters.

Where the code and its documentation differ, the model follows the code:

- `run_script` in `run_all.py` does not turn a failure to start a child
  into an exit code. Such an exception escapes `main`, so the model has no
  such path.
- `_resolve_python` (run_all.py) tests FINANCAS_PYTHON for presence only,
  so an empty value is still expanded and tried. `_resolve_runner_python`
  (executar_boletins.py) skips it when it is empty. `EmptyOverrideIsTried`
  and `EmptyOverrideIsSkipped` state the two behaviours.
- In `_load_config`:
  - BOLETINS_CONFIG is used whenever it is set, even when it is empty;
  - a `kernel_name` present in the file is used even when it is empty;
  - only the environment values and the file's `base_dir` are tested for
    emptiness.

## Model

| member | source | states |
|---|---|---|
| Common.EnvGet | executar_boletins.py:57 | `os.environ.get`: a value exactly when the key is present, and then the mapped value |
| Common.FirstExistingIndex | run_all.py:34-45 | index of the first existing candidate: it exists, and no earlier candidate does |
| Common.FirstExisting | executar_boletins.py:56-67 | first-match-wins lookup: the result is an existing candidate with no existing candidate before it, and it is None exactly when no candidate exists |
| Common.Truthy | executar_boletins.py:58 | Python truthiness of an optional string: present and non-empty |
| Paths.Name | run_all.py:49 | the final component is never longer than the path |
| Paths.NameIsLastComponent | run_all.py:49 | the final component holds no '/', is a suffix of the path, and follows a '/' when shorter than the path |
| Paths.NameHasNoSeparator | run_all.py:49 | the final component holds no '/' |
| Paths.NameIsSuffix | run_all.py:49 | the path is its prefix followed by its final component |
| Paths.NameFollowsSeparator | run_all.py:49 | a final component shorter than the path follows a '/' |
| Paths.Parent | run_all.py:80 | `Path.parent`: the path before the final component and its separator; "." for a bare name, "/" for a child of the root |
| Paths.Join | run_all.py:26 | `base / rel` for a relative `rel`, with one separator between them |
| Paths.WithName | executar_boletins.py:122 | `Path.with_name`: the sibling of that name |
| Paths.LastIndexOf | run_all.py:51 | the last index of a character, or -1, and no later occurrence |
| Paths.Stem | run_all.py:51 | the stem is a prefix of the name; a suffix is removed exactly when the last '.' is neither the first nor the last character, and then the stem ends just before that '.' |
| Paths.NameSnoc | run_all.py:49 | appending '/' empties the final component; any other character extends it |
| Paths.NameOfConcat | run_all.py:49 | the final component of `x + y` is that of `y` when `y` holds a '/', otherwise the final component of `x` followed by `y` |
| Paths.NameOfPlain | run_all.py:49 | a name without '/' is its own final component |
| Paths.NameOfJoin | run_all.py:26-30 | the final component of `base / rel` is that of `rel`, for every base |
| Paths.JoinInjective | run_all.py:61 | joining to one base never maps two different relative paths to one path |
| RunAll.Scripts | run_all.py:25-31 | `SCRIPTS` has five entries, each the workspace root joined with a folder and a file |
| RunAll.BaseDir | run_all.py:92 | the folder of the resolved run_all.py |
| RunAll.WorkspaceRoot | run_all.py:23 | the parent of that folder |
| RunAll.LogsDir | run_all.py:93 | the `logs` folder beside run_all.py |
| RunAll.PythonCandidates | run_all.py:34-45 | the override after `expanduser` when FINANCAS_PYTHON is present, then the /tmp venv |
| RunAll.ResolvePython | run_all.py:34-45 | `_resolve_python` always yields an interpreter: an existing path or `sys.executable` |
| RunAll.ResolvePythonIsFirstMatch | run_all.py:34-45 | the override (when FINANCAS_PYTHON is present) is tried first, then the /tmp venv, then `sys.executable` |
| RunAll.EmptyOverrideIsTried | run_all.py:36-38 | an empty FINANCAS_PYTHON counts as present; its expansion is used when it exists |
| RunAll.Replace | run_all.py:51 | `str.replace` of one character by another, position by position, same length |
| RunAll.Slug | run_all.py:48-51 | `slug_name`: the stem of the final component with '.' and ' ' turned into '_'; its properties are `SlugIsSafe` and `SlugIgnoresDirectory` |
| RunAll.SlugChar | run_all.py:51 | the character `slug_name` makes of one stem character |
| RunAll.SlugIsSafe | run_all.py:48-51 | the slug is the stem with every '.' and ' ' turned into '_', and it contains neither |
| RunAll.SlugIgnoresDirectory | run_all.py:48-51 | the slug depends only on the final component, not on the directory |
| RunAll.SlugExample | run_all.py:50 | `Boletim_NYSE_1.1.py` becomes `Boletim_NYSE_1_1` |
| RunAll.SlugB3 | run_all.py:27 | `Boletim_B3_1.2.py` becomes `Boletim_B3_1_2` |
| RunAll.SlugDrawdown | run_all.py:28 | `drawdown_monitor.py` becomes `drawdown_monitor` |
| RunAll.SlugMacdDaily | run_all.py:29 | `MACD_diario.py` becomes `MACD_diario` |
| RunAll.SlugMacdWeekly | run_all.py:30 | `MACD_semanal.py` becomes `MACD_semanal` |
| RunAll.ScriptFileSlug | run_all.py:26-30 | the slug of each script file name |
| RunAll.SlugOfScript | run_all.py:48-51 | the slug of `root / dir / file` is the slug of `file` |
| RunAll.ScriptSlug | run_all.py:25-31 | the slug of each `SCRIPTS` entry, for every workspace root |
| RunAll.SlugNamesDistinct | run_all.py:25-31 | the five slugs are pairwise different |
| RunAll.LogPathInjective | run_all.py:61 | with one timestamp, two log paths coincide only when the slugs do |
| RunAll.LogFileName | run_all.py:61 | `{ts}__{slug}.log` |
| RunAll.LogPath | run_all.py:61 | the log file inside the logs folder |
| RunAll.ScriptLogPathsDistinct | run_all.py:61 | the five scripts of one run write five different log files |
| RunAll.Dashes | run_all.py:71 | `"-" * n`: n dashes |
| RunAll.JoinLinesSnoc | run_all.py:67-71 | writing one more line appends it and its newline to the log |
| RunAll.FirstIndexOf | run_all.py:67-71 | the first index of a character, or the length when absent |
| RunAll.SplitJoinLines | run_all.py:66-71 | splitting the written lines at newlines gives the lines back, whatever follows |
| RunAll.HeaderLines | run_all.py:67-71 | the four header lines in the order they are written |
| RunAll.Header | run_all.py:66-71 | the header text: those lines, each with its newline |
| RunAll.HeaderLinesArePlain | run_all.py:67-71 | no header line holds a newline when the timestamp, script and interpreter hold none |
| RunAll.LogLinesAsWritten | run_all.py:66-81 | as written, the log read back line by line is the child's lines followed by the four header lines |
| RunAll.HeaderNotFirstAsWritten | run_all.py:66-81 | as written, a script that prints `hello` gets a log whose first line is `hello`, not the Timestamp line |
| RunAll.LogStartsWithHeader | run_all.py:66-71 | when the header is flushed before the child starts, the log read line by line starts with Timestamp, Script, Python and 80 dashes, whatever the child printed |
| RunAll.Attempt | run_all.py:54-88 | `run_script`: the code is 2 for a missing script, otherwise the child's; a missing script writes no log and starts no child; an existing one starts exactly one child |
| RunAll.Python | run_all.py:69 | the interpreter `_resolve_python` selects in this world |
| RunAll.ScriptLaunch | run_all.py:73-81 | the child is `[python, script]` in the script's folder |
| RunAll.ScriptCode | run_all.py:54-88 | 2 for a missing script, otherwise the child's exit code |
| RunAll.LogContent | run_all.py:66-81 | as written, the log holds the child's output, then the header flushed when the file closes |
| RunAll.FlushedLogContent | run_all.py:66-81 | with a flush before the child starts, the log holds the header, then the child's output |
| RunAll.AttemptAll | run_all.py:102-106 | every script attempted in order, none skipped: the reference for the fail-fast loop |
| RunAll.ExistingLaunches | run_all.py:73-81 | one child per existing script, in list order |
| RunAll.FailFast | run_all.py:102-109 | the fail-fast loop of `main`: attempt in order, stop at the first non-zero code |
| RunAll.AttemptAllLaunches | run_all.py:102-106 | attempting every script starts one child per existing script, in list order |
| RunAll.FailFastZeroIff | run_all.py:102-109 | `main` returns 0 exactly when every script returned 0 |
| RunAll.FailFastAllSucceed | run_all.py:102-109 | when every script returns 0, every script is attempted |
| RunAll.FailFastStopsAtFirstFailure | run_all.py:102-106 | at the first non-zero code the run stops with that code; no later script is started or logged |
| RunAll.Orchestrator.OpenLog | run_all.py:66 | opening a log for writing makes it empty |
| RunAll.Orchestrator.WriteLog | run_all.py:67 | `f.write` adds the text to the file object's buffer, not to the file |
| RunAll.Orchestrator.Flush | run_all.py:66-81 | the buffer reaches the file when the `with` block closes it |
| RunAll.Orchestrator.WriteLine | run_all.py:67-71 | one written line extends the buffer by that line and its newline |
| RunAll.Orchestrator.WriteHeader | run_all.py:66-71 | the four header lines are written to the buffer in order |
| RunAll.Orchestrator.Spawn | run_all.py:73-81 | the child is started once, its output goes straight to the file past what it already holds, and its code comes back |
| RunAll.Orchestrator.RunScript | run_all.py:54-88 | `run_script` returns the script's code; a missing script changes nothing; otherwise the log holds the child's output then the header, and the new state is that of `Attempt` |
| RunAll.Orchestrator.RunScriptFlushed | run_all.py:54-88 | `run_script` with `f.flush()` before `subprocess.run`: the log holds the header, then the child's output |
| RunAll.Orchestrator.RunAllScripts | run_all.py:91-109 | `main` creates the logs directory, and its code, logs (as written, output before header) and children are those of `FailFast` over `SCRIPTS` |
| Boletins.ResolveRunnerPython | executar_boletins.py:56-67 | `_resolve_runner_python` never yields a missing path; it yields nothing exactly when neither a non-empty existing override nor the /tmp venv exists |
| Boletins.ExpandNoResolve | executar_boletins.py:22-23 | `_expand_no_resolve`: `expanduser`, then `expandvars` |
| Boletins.Expand | executar_boletins.py:18-19 | `_expand`: the same, then `resolve` |
| Boletins.RunnerCandidates | executar_boletins.py:56-67 | the override only when non-empty, then the /tmp venv |
| Boletins.ResolveRunnerPythonIsFirstMatch | executar_boletins.py:56-67 | the non-empty override is tried first, then the /tmp venv |
| Boletins.EmptyOverrideIsSkipped | executar_boletins.py:57-58 | an empty FINANCAS_PYTHON is ignored |
| Boletins.ReexecDecision | executar_boletins.py:70-89 | a re-run happens exactly when FINANCAS_REEXEC is not "1", an interpreter was resolved, and its absolute path is not the current one; the child gets FINANCAS_REEXEC=1, the launcher, this file and the same arguments |
| Boletins.ArgsAfterProgram | executar_boletins.py:87 | `sys.argv[1:]`, empty when there is no argument |
| Boletins.ReexecOnce | executar_boletins.py:85-86 | the re-run child never re-runs itself again |
| Boletins.Lower | executar_boletins.py:115 | lower case, one character at a time |
| Boletins.LowerChar | executar_boletins.py:115 | the ASCII lower case of one character |
| Boletins.StartsWith | executar_boletins.py:116 | `str.startswith` |
| Boletins.IsMac | executar_boletins.py:115-116 | the lower-cased system name starts with "darwin" or "mac" |
| Boletins.DefaultConfigName | executar_boletins.py:115-121 | the macOS file on a Mac, the Linux file on Linux and on every other system |
| Boletins.DefaultConfigPath | executar_boletins.py:114-122 | `_default_config_path`: that file beside the script |
| Boletins.ConfigFileNamesArePlain | executar_boletins.py:117-121 | the two file names are single path components |
| Boletins.DefaultConfigPathIsSibling | executar_boletins.py:114-122 | the default configuration is the macOS file exactly on a Mac, the Linux file everywhere else, in the script's folder |
| Boletins.DarwinIsMac | executar_boletins.py:116 | "Darwin" is a Mac |
| Boletins.LinuxIsNotMac | executar_boletins.py:116-119 | "Linux" is not a Mac |
| Boletins.PlatformBaseDir | executar_boletins.py:138-145 | the fallback base directory is never empty |
| Boletins.BaseDirSetting | executar_boletins.py:135-145 | base_dir priority: a non-empty BOLETINS_BASE_DIR, else a non-empty `base_dir` in the file, else the platform default; never empty |
| Boletins.ConfigPath | executar_boletins.py:127 | BOLETINS_CONFIG whenever set, even to "", else the default file; expanded and resolved |
| Boletins.ReadIni | executar_boletins.py:129-131 | the file is read only when it exists; a missing file leaves the configuration empty |
| Boletins.BoletinsSection | executar_boletins.py:133 | the `boletins` section, or an empty one |
| Boletins.KernelSetting | executar_boletins.py:136 | kernel priority: a non-empty KERNEL_NAME, else a `kernel_name` present in the file, else "python3" |
| Boletins.LoadConfig | executar_boletins.py:125-154 | on success the base directory exists, and the configuration path is the one chosen |
| Boletins.LoadConfigOutcome | executar_boletins.py:125-154 | loading fails exactly when the file cannot be parsed or the expanded base directory does not exist; on success the values follow the priorities |
| Boletins.EnvironmentOverridesFile | executar_boletins.py:135-136 | when both variables are non-empty, the file's contents do not change the configuration |
| Boletins.EmptySectionKernelIsKept | executar_boletins.py:136 | an empty `kernel_name` in the file is kept as it is |
| Boletins.BuildNotebookList | executar_boletins.py:157-165 | the list has six entries |
| Boletins.NotebookFileNamesArePlain | executar_boletins.py:159-164 | each notebook file name is one non-empty path component |
| Boletins.ParentOfChild | executar_boletins.py:185 | `prefix/file` has name `file` and parent `prefix` |
| Boletins.FileUnderFolder | executar_boletins.py:185 | a notebook under `base / "dir/file"` is named `file` and lives in `base / dir` |
| Boletins.NotebookLocation | executar_boletins.py:157-165 | each listed notebook has its own file name and sits in its folder under the base directory |
| Boletins.NotebooksDistinct | executar_boletins.py:157-165 | the six notebooks are six different paths |
| Boletins.NotebookFilesDistinct | executar_boletins.py:159-164 | the six file names are pairwise different |
| Boletins.Preflight | executar_boletins.py:174-175 | the checks pass exactly when papermill and jupyter_client import and the kernel is registered; a missing papermill is a `ModuleNotFoundError` |
| Boletins.Visited | executar_boletins.py:179-212 | the loop never visits more notebooks than the list holds |
| Boletins.Runnable | executar_boletins.py:180-189 | a notebook is executed only when it and its folder exist |
| Boletins.Code | executar_boletins.py:180-210 | 2 for a missing notebook or folder, 1 for an execution that raises, 0 otherwise |
| Boletins.Visit | executar_boletins.py:180-218 | one iteration: rc 2 for a missing path; otherwise a temporary file, one execution in the notebook's folder, rc 1 on a raise, the deletion attempt, and a stop under `stop_on_error` |
| Boletins.Run | executar_boletins.py:177-220 | the loop: visit in order until an iteration asks to stop |
| Boletins.Runnables | executar_boletins.py:179-189 | the notebooks that exist and have their folder, in order |
| Boletins.Inputs | executar_boletins.py:199-200 | the notebook of each execution, in order |
| Boletins.Codes | executar_boletins.py:180-210 | the failure code of each notebook, in order |
| Boletins.FoldRcSnoc | executar_boletins.py:182-210 | a non-zero code replaces `rc`, and a zero leaves it |
| Boletins.FoldRc | executar_boletins.py:177-210 | how `rc` evolves over the failure codes |
| Boletins.FoldRcIsLastFailure | executar_boletins.py:177-220 | the folded code is the last non-zero code, or the start when every code is zero |
| Boletins.RunRcFolds | executar_boletins.py:177-220 | the run's code folds the codes of the visited notebooks |
| Boletins.RunRcZeroIff | executar_boletins.py:177-220 | the code is 0 exactly when nothing was missing and nothing raised; it stays in {0, 1, 2} |
| Boletins.RunRcIsLastFailure | executar_boletins.py:177-220 | the code is that of the most recent failure, and a later success never resets it |
| Boletins.StopOnErrorStopsAtFirstRaise | executar_boletins.py:206-212 | with `stop_on_error`, the run returns 1 after the first notebook that raises, and visits nothing after it |
| Boletins.VisitsAll | executar_boletins.py:179-189 | without `stop_on_error`, or when nothing raises, every notebook is visited; missing ones never stop the loop |
| Boletins.RunExecutesRunnables | executar_boletins.py:179-204 | the executions are exactly the existing notebooks with existing folders among those visited, in order, with one temporary file each |
| Boletins.ExecutionsRunInTheirFolder | executar_boletins.py:185-204 | every executed notebook exists, has its folder, and runs with that folder as working directory, with the requested kernel and log setting |
| Boletins.UnlinkFailuresDoNotMatter | executar_boletins.py:213-217 | failed deletions of temporary files change neither the code, nor the executions, nor where the run stops |
| Boletins.LeftoverTempsFailedToUnlink | executar_boletins.py:191-217 | a temporary file stays on disk only when deleting it failed |
| Boletins.ListingLineRoundTrip | executar_boletins.py:245 | each listing line reads back as the notebook and whether it exists |
| Boletins.ListingLine | executar_boletins.py:245 | "OK  " or "MISS", a space, then the path |
| Boletins.ParseListingLine | executar_boletins.py:245 | reads a listing line back into presence and path |
| Boletins.ListNotebooks | executar_boletins.py:243-246 | list mode prints one line per notebook, in order, each saying whether the notebook exists |
| Boletins.Process.Chdir | executar_boletins.py:198 | `os.chdir` sets the working directory |
| Boletins.Process.NewTemp | executar_boletins.py:191-192 | a new temporary file, named by the oracle, is on disk |
| Boletins.Process.Unlink | executar_boletins.py:213-217 | the temporary file is removed unless deleting it fails, and the failure is swallowed |
| Boletins.Process.ExecuteNotebook | executar_boletins.py:199-204 | one execution is recorded with the current working directory, and it raises as the oracle says |
| Boletins.Process.ExecutarNotebooks | executar_boletins.py:167-220 | a failed check raises and changes nothing; otherwise the code and the new state are those of `Run`; the working directory is restored on every way out, including the early return |
| Boletins.HostBootstrap | executar_boletins.py:224 | the re-run decision for this host |
| Boletins.HostConfig | executar_boletins.py:234 | `_load_config` for this host |
| Boletins.Process.ExecutarBoletins | executar_boletins.py:223-256 | `main`: the child's code after a re-run; 2 on a configuration error; 0 and one line per notebook in list mode, with nothing executed; 2 when a check fails; otherwise the code of the notebook run |

## Left out

- Printing, stderr messages and `traceback` output are not modelled. They do not affect codes or state.
- `argparse` is not modelled; its flags are an input. Its own exit with code 2 on bad arguments is not modelled.
- `subprocess.run` is modelled only by its result. A child is an oracle giving its output and exit code. stdout and stderr interleaving is not modelled.
- A failure to start a child in `run_script` is not modelled: the source lets it escape `main`, and does not turn it into a code.
- `_import_papermill` and `_add_local_site_packages` are reduced to the flag "papermill imports". `sys.path` handling is not modelled.
- `_validate_kernel` is reduced to the flag "jupyter_client imports" and the set of registered kernels. Its error message is not modelled.
- `pm.execute_notebook` is an oracle saying which notebooks raise. Only exceptions derived from `Exception` are modelled.
- A failing `os.chdir(dir_notebook)` is not modelled separately. It is caught by the same handler, so it counts as a raise of that notebook.
- A failing `os.chdir` back to the original directory is not modelled.
- A failing temporary-file creation is not modelled.
- `configparser` is not modelled. The parsed file is an oracle, including its DEFAULT-section fallbacks; a parse error is None. A file that exists but cannot be read counts as an empty configuration, with no section.
- `expanduser`, `expandvars`, `resolve`, `absolute`, symbolic links and `Path` normalisation are opaque functions. Paths are normalised text.
- Paths.Stem: uses the suffix rule of Python 3.13 and earlier, where a final '.' is not a suffix.
- Boletins.Lower: covers ASCII letters only. `str.lower()` is Unicode-wide.
- Paths.Name: gives "." for the path ".", where Python's `Path('.').name` is ''. `Paths.Join` does not drop a "." component either. Neither runner ever names ".", so no row above depends on it.
- Boletins.Process.ExecutarBoletins: a re-run child that cannot be started (the interpreter path exists but cannot be executed) makes `subprocess.run` raise out of `main`. The model only covers a re-run child that starts and exits with a code.
- I/O errors are not modelled: writing a log, `mkdir` of the logs directory, and the filesystem changing while a run is in progress. The log files written do not feed back into the existence predicate.
- `datetime.now()` formatting and `platform.system()` are inputs.
- The `if __name__ == "__main__"` wrappers are not modelled; they only `raise SystemExit` with the returned code.

## Findings

| source | as written | input that shows it | evidently intended | confidence | as-written member | corrected member |
|---|---|---|---|---|---|---|
| run_all.py:66-81 | The header is written through the buffered file object, and the child writes to the same file descriptor. The buffer reaches the file only when the `with` block closes, after the child has exited, so the log holds the child's output and then the header. | An existing script that prints `hello`: the first line of its log is `hello`, not the Timestamp line. | The header comes first, for instance with `f.flush()` before `subprocess.run`. | not executed | RunAll.HeaderNotFirstAsWritten | RunAll.Orchestrator.RunScriptFlushed |
