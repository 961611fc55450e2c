/** run_all.py: run five Python scripts in a fixed order, each with its own
    log file, and stop at the first script that does not exit with 0,
    returning that script's exit code. */
module RunAll {
  import opened Common
  import opened Paths

  const FinancasPython: string := "FINANCAS_PYTHON"
  const TmpVenvPython: Path := "/tmp/financas-venv/bin/python"
  const HeaderRule: nat := 80

  // ---------------------------------------------------------------------
  // Where things are

  /** The directory of run_all.py, from the resolved path of the file. */
  function BaseDir(here: Path): Path {
    Parent(here)
  }

  /** `workspace_root`: the parent of that directory. */
  function WorkspaceRoot(here: Path): Path {
    Parent(Parent(here))
  }

  /** The `logs` directory beside run_all.py. */
  function LogsDir(here: Path): Path {
    Join(BaseDir(here), "logs")
  }

  /** The directory and the file name of each entry of `SCRIPTS`. */
  const ScriptDirs: seq<string> :=
    ["00_Boletim_Diario", "00_Boletim_Diario", "00_Drawdown", "00_MACD", "00_MACD"]
  const ScriptFiles: seq<string> :=
    ["Boletim_NYSE_1.1.py", "Boletim_B3_1.2.py", "drawdown_monitor.py", "MACD_diario.py", "MACD_semanal.py"]

  /** `SCRIPTS`, in execution order: `root / dir / file` for each entry. */
  function Scripts(root: Path): (s: seq<Path>)
    ensures |s| == |ScriptFiles|
  {
    seq(|ScriptFiles|, i requires 0 <= i < |ScriptFiles| => Join(Join(root, ScriptDirs[i]), ScriptFiles[i]))
  }

  // ---------------------------------------------------------------------
  // Interpreter resolution

  /** The candidates `_resolve_python` tries, in order: the override (after
      `expanduser` only) when the variable is set at all, then the venv
      outside the synchronised folder. */
  function PythonCandidates(env: Env, ops: PathOps): seq<Path> {
    (if FinancasPython in env then [ops.expandUser(env[FinancasPython])] else [])
    + [TmpVenvPython]
  }

  /** `_resolve_python`: the first candidate that exists, else the current
      interpreter; it always yields an interpreter. */
  function ResolvePython(env: Env, fs: set<Path>, ops: PathOps, sysExecutable: Path): (r: Path)
    ensures r in fs || r == sysExecutable
  {
    var pyFromEnv := if FinancasPython in env then Some(ops.expandUser(env[FinancasPython])) else None;
    if pyFromEnv.Some? && pyFromEnv.value in fs then pyFromEnv.value
    else if TmpVenvPython in fs then TmpVenvPython
    else sysExecutable
  }

  /** Resolution is the first-match-wins lookup over the candidates, with
      the current interpreter as the default. */
  lemma ResolvePythonIsFirstMatch(env: Env, fs: set<Path>, ops: PathOps, sysExecutable: Path)
    ensures ResolvePython(env, fs, ops, sysExecutable)
         == FirstExisting(PythonCandidates(env, ops), fs).GetOr(sysExecutable)
  {
    var c := PythonCandidates(env, ops);
    var tail := [TmpVenvPython];
    assert FirstExistingIndex(tail, fs) == if TmpVenvPython in fs then 0 else 1 by {
      assert tail[1..] == [];
    }
    if FinancasPython in env {
      assert c == [ops.expandUser(env[FinancasPython])] + tail;
      assert c[1..] == tail;
    } else {
      assert c == tail;
    }
  }

  /** The override is only tested for presence: an empty FINANCAS_PYTHON is
      still expanded and used when its expansion exists. */
  lemma EmptyOverrideIsTried(env: Env, fs: set<Path>, ops: PathOps, sysExecutable: Path)
    requires FinancasPython in env && env[FinancasPython] == ""
    requires ops.expandUser("") in fs
    ensures ResolvePython(env, fs, ops, sysExecutable) == ops.expandUser("")
  {
  }

  // ---------------------------------------------------------------------
  // Log file names

  /** Every occurrence of `c` in `s` replaced by `d` (`str.replace` of one
      character by one character). */
  function Replace(s: string, c: char, d: char): (r: string)
    ensures |r| == |s|
    ensures forall k :: 0 <= k < |s| ==> r[k] == if s[k] == c then d else s[k]
  {
    seq(|s|, k requires 0 <= k < |s| => if s[k] == c then d else s[k])
  }

  /** `slug_name`: the stem of the final component with every '.' and
      every ' ' turned into '_'. */
  function Slug(path: Path): string {
    Replace(Replace(Stem(Name(path)), '.', '_'), ' ', '_')
  }

  /** The slug keeps the stem's length, maps it character by character,
      and contains neither '.' nor ' '. */
  lemma SlugIsSafe(path: Path)
    ensures |Slug(path)| == |Stem(Name(path))|
    ensures forall k :: 0 <= k < |Slug(path)| ==> Slug(path)[k] == SlugChar(Stem(Name(path))[k])
    ensures '.' !in Slug(path) && ' ' !in Slug(path)
  {
    var stem := Stem(Name(path));
    var r := Replace(Replace(stem, '.', '_'), ' ', '_');
    assert forall k :: 0 <= k < |r| ==> r[k] == SlugChar(stem[k]);
  }

  /** What `slug_name` makes of one character of the stem. */
  function SlugChar(c: char): char {
    if c == '.' || c == ' ' then '_' else c
  }

  /** The slug does not depend on the directory part of the path. */
  lemma SlugIgnoresDirectory(d1: Path, d2: Path, name: string)
    ensures Slug(Join(d1, name)) == Slug(Join(d2, name))
  {
    NameOfJoin(d1, name);
    NameOfJoin(d2, name);
  }

  /** The five script file names are single path components. */
  lemma ScriptFileNamesArePlain()
    ensures '/' !in "Boletim_NYSE_1.1.py" && '/' !in "Boletim_B3_1.2.py"
    ensures '/' !in "drawdown_monitor.py"
    ensures '/' !in "MACD_diario.py" && '/' !in "MACD_semanal.py"
  {
  }

  /** The example of the source's comment. */
  lemma SlugExample()
    ensures Slug("Boletim_NYSE_1.1.py") == "Boletim_NYSE_1_1"
  {
    ScriptFileNamesArePlain();
    NameOfPlain("Boletim_NYSE_1.1.py");
    assert LastIndexOf("Boletim_NYSE_1.1.py", '.') == 16;
  }

  lemma SlugB3()
    ensures Slug("Boletim_B3_1.2.py") == "Boletim_B3_1_2"
  {
    ScriptFileNamesArePlain();
    NameOfPlain("Boletim_B3_1.2.py");
    assert LastIndexOf("Boletim_B3_1.2.py", '.') == 14;
  }

  lemma SlugDrawdown()
    ensures Slug("drawdown_monitor.py") == "drawdown_monitor"
  {
    ScriptFileNamesArePlain();
    NameOfPlain("drawdown_monitor.py");
    assert LastIndexOf("drawdown_monitor.py", '.') == 16;
  }

  lemma SlugMacdDaily()
    ensures Slug("MACD_diario.py") == "MACD_diario"
  {
    ScriptFileNamesArePlain();
    NameOfPlain("MACD_diario.py");
    assert LastIndexOf("MACD_diario.py", '.') == 11;
  }

  lemma SlugMacdWeekly()
    ensures Slug("MACD_semanal.py") == "MACD_semanal"
  {
    ScriptFileNamesArePlain();
    NameOfPlain("MACD_semanal.py");
    assert LastIndexOf("MACD_semanal.py", '.') == 12;
  }

  /** The slugs of the five scripts, in order. */
  const ScriptSlugNames: seq<string> :=
    ["Boletim_NYSE_1_1", "Boletim_B3_1_2", "drawdown_monitor", "MACD_diario", "MACD_semanal"]

  /** The slug of each script, whatever the workspace root. */
  lemma ScriptSlug(root: Path, i: nat)
    requires i < |Scripts(root)|
    ensures Slug(Scripts(root)[i]) == ScriptSlugNames[i]
  {
    SlugOfScript(root, ScriptDirs[i], ScriptFiles[i]);
    ScriptFileSlug(i);
  }

  lemma ScriptFileSlug(i: nat)
    requires i < |ScriptFiles|
    ensures Slug(ScriptFiles[i]) == ScriptSlugNames[i]
  {
    if i == 0 {
      SlugExample();
    } else if i == 1 {
      SlugB3();
    } else if i == 2 {
      SlugDrawdown();
    } else if i == 3 {
      SlugMacdDaily();
    } else {
      SlugMacdWeekly();
    }
  }

  lemma SlugOfScript(root: Path, dir: string, file: string)
    ensures Slug(Join(Join(root, dir), file)) == Slug(file)
  {
    SlugIgnoresDirectory(Join(root, dir), [], file);
  }

  /** `{ts}__{slug}.log`. */
  function LogFileName(ts: string, script: Path): string {
    ts + "__" + Slug(script) + ".log"
  }

  /** The log file of a script inside the logs directory. */
  function LogPath(logsDir: Path, ts: string, script: Path): Path {
    Join(logsDir, LogFileName(ts, script))
  }

  /** Within one run (one timestamp) two log paths coincide only when the
      slugs do. */
  lemma LogPathInjective(logsDir: Path, ts: string, a: Path, b: Path)
    requires LogPath(logsDir, ts, a) == LogPath(logsDir, ts, b)
    ensures Slug(a) == Slug(b)
  {
    JoinInjective(logsDir, LogFileName(ts, a), LogFileName(ts, b));
    var p := ts + "__";
    assert Slug(a) == LogFileName(ts, a)[|p|..|LogFileName(ts, a)| - 4];
    assert Slug(b) == LogFileName(ts, b)[|p|..|LogFileName(ts, b)| - 4];
  }

  /** The five scripts of one run write five different log files. */
  lemma ScriptLogPathsDistinct(root: Path, logsDir: Path, ts: string, i: nat, j: nat)
    requires i < j < |Scripts(root)|
    ensures LogPath(logsDir, ts, Scripts(root)[i]) != LogPath(logsDir, ts, Scripts(root)[j])
  {
    var s := Scripts(root);
    ScriptSlug(root, i);
    ScriptSlug(root, j);
    SlugNamesDistinct(i, j);
    if LogPath(logsDir, ts, s[i]) == LogPath(logsDir, ts, s[j]) {
      LogPathInjective(logsDir, ts, s[i], s[j]);
    }
  }

  lemma SlugNamesDistinct(i: nat, j: nat)
    requires i < j < |ScriptSlugNames|
    ensures ScriptSlugNames[i] != ScriptSlugNames[j]
  {
    var n := ScriptSlugNames;
    assert |n[0]| == 16 && |n[1]| == 14 && |n[2]| == 16 && |n[3]| == 11 && |n[4]| == 12;
    assert n[0][0] == 'B' && n[2][0] == 'd';
  }

  // ---------------------------------------------------------------------
  // Log contents

  /** `"-" * n`. */
  function Dashes(n: nat): (r: string)
    ensures |r| == n
    ensures forall k :: 0 <= k < n ==> r[k] == '-'
  {
    seq(n, _ => '-')
  }

  /** Lines written one after the other, each ended by a newline. */
  function JoinLines(ls: seq<string>): string {
    if ls == [] then [] else ls[0] + "\n" + JoinLines(ls[1..])
  }

  lemma {:induction false} JoinLinesSnoc(ls: seq<string>, l: string)
    ensures JoinLines(ls + [l]) == JoinLines(ls) + (l + "\n")
    decreases |ls|
  {
    if ls == [] {
      assert [] + [l] == [l];
      assert [l][1..] == [];
    } else {
      assert (ls + [l])[1..] == ls[1..] + [l];
      JoinLinesSnoc(ls[1..], l);
    }
  }

  /** `str.find(c)`, with |s| for "absent". */
  function FirstIndexOf(s: string, c: char): (i: nat)
    ensures i <= |s|
    ensures i < |s| ==> s[i] == c
    ensures forall j :: 0 <= j < i ==> s[j] != c
  {
    if s == [] then 0
    else if s[0] == c then 0
    else 1 + FirstIndexOf(s[1..], c)
  }

  /** The lines of a text: split at each newline; a final line without one
      is kept. */
  function SplitLines(s: string): seq<string>
    decreases |s|
  {
    if s == [] then []
    else
      var i := FirstIndexOf(s, '\n');
      if i == |s| then [s] else [s[..i]] + SplitLines(s[i + 1..])
  }

  /** Splitting undoes joining, whatever text follows. */
  lemma {:induction false} SplitJoinLines(ls: seq<string>, rest: string)
    requires forall k :: 0 <= k < |ls| ==> '\n' !in ls[k]
    ensures SplitLines(JoinLines(ls) + rest) == ls + SplitLines(rest)
  {
    if ls != [] {
      var l := ls[0];
      var j := JoinLines(ls[1..]);
      assert JoinLines(ls) == l + "\n" + j;
      assert JoinLines(ls) + rest == l + "\n" + (j + rest);
      SplitLinesCons(l, j + rest);
      SplitJoinLines(ls[1..], rest);
      ConsAppend(ls, SplitLines(rest));
    } else {
      assert JoinLines(ls) + rest == rest;
    }
  }

  lemma ConsAppend<T>(xs: seq<T>, ys: seq<T>)
    requires xs != []
    ensures xs + ys == [xs[0]] + (xs[1..] + ys)
  {
    assert xs == [xs[0]] + xs[1..];
  }

  /** A first line without a newline is split off as it is. */
  lemma SplitLinesCons(l: string, tail: string)
    requires '\n' !in l
    ensures SplitLines(l + "\n" + tail) == [l] + SplitLines(tail)
  {
    var s := l + "\n" + tail;
    FirstIndexAfterPlain(l, tail);
    assert s[..|l|] == l;
    assert s[|l| + 1..] == tail;
  }

  lemma {:induction false} FirstIndexAfterPlain(l: string, tail: string)
    requires '\n' !in l
    ensures FirstIndexOf(l + "\n" + tail, '\n') == |l|
    decreases |l|
  {
    if l != [] {
      assert (l + "\n" + tail)[1..] == l[1..] + "\n" + tail;
      FirstIndexAfterPlain(l[1..], tail);
    }
  }

  /** The four header lines, in the order they are written. */
  function HeaderLines(ts: string, script: Path, python: Path): seq<string> {
    ["Timestamp: " + ts, "Script: " + script, "Python: " + python, Dashes(HeaderRule)]
  }

  function Header(ts: string, script: Path, python: Path): string {
    JoinLines(HeaderLines(ts, script, python))
  }

  /** None of the header lines holds a newline when the values in them
      hold none. */
  lemma HeaderLinesArePlain(ts: string, script: Path, python: Path)
    requires '\n' !in ts && '\n' !in script && '\n' !in python
    ensures forall k :: 0 <= k < |HeaderLines(ts, script, python)| ==> '\n' !in HeaderLines(ts, script, python)[k]
  {
    var h := HeaderLines(ts, script, python);
    forall k | 0 <= k < |h| ensures '\n' !in h[k] {
      if k == 0 {
        NoNewlineConcat("Timestamp: ", ts);
      } else if k == 1 {
        NoNewlineConcat("Script: ", script);
      } else if k == 2 {
        NoNewlineConcat("Python: ", python);
      }
    }
  }

  /** When the header reaches the file before the child's output, the log
      read back line by line starts with Timestamp, Script, Python and the
      rule of 80 dashes, whatever the script printed. */
  lemma LogStartsWithHeader(ts: string, script: Path, python: Path, output: string)
    requires '\n' !in ts && '\n' !in script && '\n' !in python
    ensures |SplitLines(Header(ts, script, python) + output)| >= 4
    ensures SplitLines(Header(ts, script, python) + output)[..4] == HeaderLines(ts, script, python)
  {
    HeaderLinesArePlain(ts, script, python);
    SplitJoinLines(HeaderLines(ts, script, python), output);
  }

  /** As `run_script` is written, the header reaches the file after the
      child's output: the lines the child printed come first, and the four
      header lines close the log. */
  lemma LogLinesAsWritten(outLines: seq<string>, ts: string, script: Path, python: Path)
    requires forall k :: 0 <= k < |outLines| ==> '\n' !in outLines[k]
    requires '\n' !in ts && '\n' !in script && '\n' !in python
    ensures SplitLines(JoinLines(outLines) + Header(ts, script, python)) == outLines + HeaderLines(ts, script, python)
  {
    var h := Header(ts, script, python);
    HeaderLinesArePlain(ts, script, python);
    SplitJoinLines(outLines, h);
    SplitJoinLines(HeaderLines(ts, script, python), "");
    assert h + "" == h;
  }

  /** A script that prints one line, "hello": the first line of its log is
      that line, not the Timestamp line. */
  lemma HeaderNotFirstAsWritten(ts: string, script: Path, python: Path)
    requires '\n' !in ts && '\n' !in script && '\n' !in python
    ensures SplitLines("hello\n" + Header(ts, script, python))[0] == "hello"
    ensures SplitLines("hello\n" + Header(ts, script, python))[0] != HeaderLines(ts, script, python)[0]
  {
    assert JoinLines(["hello"]) == "hello\n" by {
      assert ["hello"][1..] == [];
    }
    LogLinesAsWritten(["hello"], ts, script, python);
  }

  lemma NoNewlineConcat(a: string, b: string)
    requires '\n' !in a && '\n' !in b
    ensures '\n' !in a + b
  {
  }

  // ---------------------------------------------------------------------
  // Running scripts

  /** A child process as started: interpreter, script and working directory. */
  datatype Launch = Launch(python: Path, script: Path, cwd: Path)

  /** What a child leaves behind: its combined output and its exit code. */
  datatype ChildRun = ChildRun(output: string, code: int)

  /** The host as the orchestrator sees it: which paths exist, the
      environment, the path operations, the current interpreter and the
      behaviour of every child it could start. */
  datatype World = World(
    fs: set<Path>,
    env: Env,
    ops: PathOps,
    sysExecutable: Path,
    child: Launch -> ChildRun)

  function Python(w: World): Path {
    ResolvePython(w.env, w.fs, w.ops, w.sysExecutable)
  }

  /** `[python, script]` run in the script's own directory. */
  function ScriptLaunch(w: World, script: Path): Launch {
    Launch(Python(w), script, Parent(script))
  }

  /** The code `run_script` returns: 2 for a missing script, otherwise the
      child's. */
  function ScriptCode(w: World, script: Path): int {
    if script in w.fs then w.child(ScriptLaunch(w, script)).code else 2
  }

  /** The log of a script that ran, as `run_script` is written: the header
      lines wait in the file object's buffer while the child writes its
      output straight to the file descriptor, and reach the file when the
      `with` block closes it, so the child's output comes first. */
  function LogContent(w: World, ts: string, script: Path): string {
    w.child(ScriptLaunch(w, script)).output + Header(ts, script, Python(w))
  }

  /** The log of a script that ran, when the header is flushed before the
      child starts: the header, then the child's output. */
  function FlushedLogContent(w: World, ts: string, script: Path): string {
    Header(ts, script, Python(w)) + w.child(ScriptLaunch(w, script)).output
  }

  /** The observable effect of a run: the last code, the log files and the
      children started. */
  datatype Report = Report(code: int, logs: map<Path, string>, launches: seq<Launch>)

  /** One `run_script` call: a missing script leaves no log and starts
      nothing. */
  function Attempt(w: World, logsDir: Path, ts: string, r: Report, script: Path): (r': Report)
    ensures r'.code == ScriptCode(w, script)
    ensures script !in w.fs ==> r'.logs == r.logs && r'.launches == r.launches
    ensures script in w.fs ==> r'.launches == r.launches + [ScriptLaunch(w, script)]
  {
    if script !in w.fs then r.(code := 2)
    else Report(ScriptCode(w, script),
                r.logs[LogPath(logsDir, ts, script) := LogContent(w, ts, script)],
                r.launches + [ScriptLaunch(w, script)])
  }

  /** Every script attempted in order, none skipped. */
  function AttemptAll(w: World, logsDir: Path, ts: string, r: Report, ss: seq<Path>): Report
    decreases |ss|
  {
    if ss == [] then r else AttemptAll(w, logsDir, ts, Attempt(w, logsDir, ts, r, ss[0]), ss[1..])
  }

  /** `main`'s loop: attempt in order, stop at the first non-zero code. */
  function FailFast(w: World, logsDir: Path, ts: string, r: Report, ss: seq<Path>): Report
    decreases |ss|
  {
    if ss == [] then r
    else
      var r' := Attempt(w, logsDir, ts, r, ss[0]);
      if r'.code != 0 then r' else FailFast(w, logsDir, ts, r', ss[1..])
  }

  /** The children started for a list of scripts attempted in full: one
      per existing script, in list order. */
  function ExistingLaunches(w: World, ss: seq<Path>): seq<Launch>
    decreases |ss|
  {
    if ss == [] then []
    else (if ss[0] in w.fs then [ScriptLaunch(w, ss[0])] else []) + ExistingLaunches(w, ss[1..])
  }

  lemma {:induction false} AttemptAllLaunches(w: World, logsDir: Path, ts: string, r: Report, ss: seq<Path>)
    ensures AttemptAll(w, logsDir, ts, r, ss).launches == r.launches + ExistingLaunches(w, ss)
    decreases |ss|
  {
    if ss != [] {
      AttemptAllLaunches(w, logsDir, ts, Attempt(w, logsDir, ts, r, ss[0]), ss[1..]);
    }
  }

  /** `main` returns 0 exactly when every script returned 0. */
  lemma {:induction false} FailFastZeroIff(w: World, logsDir: Path, ts: string, r: Report, ss: seq<Path>)
    requires r.code == 0
    ensures FailFast(w, logsDir, ts, r, ss).code == 0
        <==> forall i :: 0 <= i < |ss| ==> ScriptCode(w, ss[i]) == 0
    decreases |ss|
  {
    if ss != [] {
      var r' := Attempt(w, logsDir, ts, r, ss[0]);
      if r'.code == 0 {
        FailFastZeroIff(w, logsDir, ts, r', ss[1..]);
        assert forall i :: 1 <= i < |ss| ==> ss[i] == ss[1..][i - 1];
      }
    }
  }

  /** When every script returns 0, all of them are attempted. */
  lemma {:induction false} FailFastAllSucceed(w: World, logsDir: Path, ts: string, r: Report, ss: seq<Path>)
    requires r.code == 0
    requires forall i :: 0 <= i < |ss| ==> ScriptCode(w, ss[i]) == 0
    ensures FailFast(w, logsDir, ts, r, ss) == AttemptAll(w, logsDir, ts, r, ss)
    decreases |ss|
  {
    if ss != [] {
      assert ScriptCode(w, ss[0]) == 0;
      FailFastAllSucceed(w, logsDir, ts, Attempt(w, logsDir, ts, r, ss[0]), ss[1..]);
    }
  }

  /** At the first script with a non-zero code the run stops with that
      code: the outcome is that of attempting exactly the scripts up to and
      including it, so no later script is started or logged. */
  lemma {:induction false} FailFastStopsAtFirstFailure(w: World, logsDir: Path, ts: string, r: Report, ss: seq<Path>, k: nat)
    requires r.code == 0
    requires k < |ss| && ScriptCode(w, ss[k]) != 0
    requires forall j :: 0 <= j < k ==> ScriptCode(w, ss[j]) == 0
    ensures FailFast(w, logsDir, ts, r, ss) == AttemptAll(w, logsDir, ts, r, ss[..k + 1])
    ensures FailFast(w, logsDir, ts, r, ss).code == ScriptCode(w, ss[k])
    decreases k
  {
    var r' := Attempt(w, logsDir, ts, r, ss[0]);
    if k == 0 {
      assert ss[..1][1..] == [];
    } else {
      assert ScriptCode(w, ss[0]) == 0;
      FailFastStopsAtFirstFailure(w, logsDir, ts, r', ss[1..], k - 1);
      assert ss[..k + 1][1..] == ss[1..][..k];
    }
  }

  // ---------------------------------------------------------------------
  // The orchestrator process

  /** The orchestrator's process: the log files it wrote, the children it
      started, the directories it created and its working directory, which
      it never changes (children get theirs at launch). */
  class Orchestrator {
    var logs: map<Path, string>
    var pending: string
    var launches: seq<Launch>
    var dirs: set<Path>
    var cwd: Path

    constructor (cwd0: Path)
      ensures logs == map[] && pending == "" && launches == [] && dirs == {} && cwd == cwd0
    {
      logs, pending, launches, dirs, cwd := map[], "", [], {}, cwd0;
    }

    /** `log_file.open("w")`: created or truncated, with an empty buffer. */
    method OpenLog(path: Path)
      modifies this`logs, this`pending
      ensures logs == old(logs)[path := ""] && pending == ""
    {
      logs := logs[path := ""];
      pending := "";
    }

    /** `f.write(text)`: the text goes to the file object's buffer. */
    method WriteLog(text: string)
      modifies this`pending
      ensures pending == old(pending) + text
    {
      pending := pending + text;
    }

    /** `f.write(line + "\n")` when the buffer holds `written`. */
    method WriteLine(line: string, ghost written: seq<string>)
      requires pending == JoinLines(written)
      modifies this`pending
      ensures pending == JoinLines(written + [line])
    {
      JoinLinesSnoc(written, line);
      WriteLog(line + "\n");
    }

    /** The buffer reaches the file: on `f.flush()`, or when the `with`
        block closes the file. */
    method Flush(path: Path)
      requires path in logs
      modifies this`logs, this`pending
      ensures logs == old(logs)[path := old(logs)[path] + old(pending)] && pending == ""
    {
      logs := logs[path := logs[path] + pending];
      pending := "";
    }

    /** `subprocess.run(cmd, stdout=f, stderr=STDOUT, cwd=...)`: the child
        writes its output straight to the log's descriptor, past what the
        file already holds, and its exit code comes back. */
    method Spawn(w: World, launch: Launch, log: Path) returns (code: int)
      requires log in logs
      modifies this`logs, this`launches
      ensures launches == old(launches) + [launch]
      ensures logs == old(logs)[log := old(logs)[log] + w.child(launch).output]
      ensures code == w.child(launch).code
    {
      launches := launches + [launch];
      var run := w.child(launch);
      logs := logs[log := logs[log] + run.output];
      code := run.code;
    }

    /** The four header lines, written one by one to an empty buffer. */
    method WriteHeader(ts: string, scriptPath: Path, selectedPython: Path)
      requires pending == ""
      modifies this`pending
      ensures pending == Header(ts, scriptPath, selectedPython)
    {
      ghost var written: seq<string> := [];
      WriteLine("Timestamp: " + ts, written);
      written := written + ["Timestamp: " + ts];
      WriteLine("Script: " + scriptPath, written);
      written := written + ["Script: " + scriptPath];
      WriteLine("Python: " + selectedPython, written);
      written := written + ["Python: " + selectedPython];
      WriteLine(Dashes(HeaderRule), written);
      written := written + [Dashes(HeaderRule)];
      assert written == HeaderLines(ts, scriptPath, selectedPython);
    }

    /** `run_script`. */
    method RunScript(w: World, scriptPath: Path, logsDir: Path, ts: string) returns (code: int)
      modifies this`logs, this`pending, this`launches
      ensures code == ScriptCode(w, scriptPath)
      ensures scriptPath !in w.fs ==>
        code == 2 && logs == old(logs) && launches == old(launches) && pending == old(pending)
      ensures scriptPath in w.fs ==> pending == ""
      ensures var r := Attempt(w, logsDir, ts, Report(0, old(logs), old(launches)), scriptPath);
        code == r.code && logs == r.logs && launches == r.launches
    {
      if scriptPath !in w.fs {
        return 2;
      }
      var logFile := Join(logsDir, LogFileName(ts, scriptPath));
      OpenLog(logFile);
      var selectedPython := ResolvePython(w.env, w.fs, w.ops, w.sysExecutable);
      WriteHeader(ts, scriptPath, selectedPython);
      var launch := Launch(selectedPython, scriptPath, Parent(scriptPath));
      code := Spawn(w, launch, logFile);
      assert logs[logFile] == w.child(launch).output by {
        assert "" + w.child(launch).output == w.child(launch).output;
      }
      Flush(logFile);
    }

    /** `run_script` with `f.flush()` before `subprocess.run`: the log holds
        the header, then the child's output. */
    method RunScriptFlushed(w: World, scriptPath: Path, logsDir: Path, ts: string) returns (code: int)
      modifies this`logs, this`pending, this`launches
      ensures code == ScriptCode(w, scriptPath)
      ensures scriptPath !in w.fs ==>
        code == 2 && logs == old(logs) && launches == old(launches) && pending == old(pending)
      ensures scriptPath in w.fs ==>
        && logs == old(logs)[LogPath(logsDir, ts, scriptPath) := FlushedLogContent(w, ts, scriptPath)]
        && launches == old(launches) + [ScriptLaunch(w, scriptPath)]
        && pending == ""
    {
      if scriptPath !in w.fs {
        return 2;
      }
      var logFile := Join(logsDir, LogFileName(ts, scriptPath));
      OpenLog(logFile);
      var selectedPython := ResolvePython(w.env, w.fs, w.ops, w.sysExecutable);
      WriteHeader(ts, scriptPath, selectedPython);
      Flush(logFile);
      assert logs[logFile] == Header(ts, scriptPath, selectedPython) by {
        assert "" + Header(ts, scriptPath, selectedPython) == Header(ts, scriptPath, selectedPython);
      }
      code := Spawn(w, Launch(selectedPython, scriptPath, Parent(scriptPath)), logFile);
      Flush(logFile);
      assert logs[logFile] == FlushedLogContent(w, ts, scriptPath) by {
        assert FlushedLogContent(w, ts, scriptPath) + "" == FlushedLogContent(w, ts, scriptPath);
      }
    }

    /** `main`: create the logs directory, then run the scripts in order and
        return the first non-zero code, or 0. */
    method RunAllScripts(w: World, here: Path, ts: string) returns (code: int)
      modifies this`logs, this`pending, this`launches, this`dirs
      ensures dirs == old(dirs) + {LogsDir(here)}
      ensures var r := FailFast(w, LogsDir(here), ts, Report(0, old(logs), old(launches)), Scripts(WorkspaceRoot(here)));
        code == r.code && logs == r.logs && launches == r.launches
    {
      var logsDir := LogsDir(here);
      dirs := dirs + {logsDir};
      var scripts := Scripts(WorkspaceRoot(here));
      ghost var start := Report(0, logs, launches);
      var i := 0;
      while i < |scripts|
        invariant 0 <= i <= |scripts|
        invariant dirs == old(dirs) + {logsDir}
        invariant FailFast(w, logsDir, ts, start, scripts)
               == FailFast(w, logsDir, ts, Report(0, logs, launches), scripts[i..])
      {
        code := RunScript(w, scripts[i], logsDir, ts);
        if code != 0 {
          return;
        }
        assert scripts[i..][1..] == scripts[i + 1..];
        i := i + 1;
      }
      code := 0;
    }
  }

}
