/** Values shared by both runners: optional values, results, paths, the
    process environment and a first-match lookup over candidate paths. */
module Common {

  datatype Option<+T> = None | Some(value: T) {
    function GetOr(default: T): T {
      match this
      case Some(v) => v
      case None => default
    }
  }

  datatype Result<+T, +E> = Ok(value: T) | Err(error: E)

  /** A filesystem path, as the normalised text that `str(Path(...))` gives. */
  type Path = string

  /** The process environment, `os.environ`. */
  type Env = map<string, string>

  /** `os.environ.get(key)`. */
  function EnvGet(env: Env, key: string): (r: Option<string>)
    ensures r.Some? <==> key in env
    ensures r.Some? ==> r.value == env[key]
  {
    if key in env then Some(env[key]) else None
  }

  /** Python truthiness of an optional string: present and non-empty. */
  predicate Truthy(v: Option<string>) {
    v.Some? && v.value != ""
  }

  /** The path operations of the host, taken as given: `os.path.expanduser`,
      `os.path.expandvars`, `Path.resolve` and `Path.absolute`, each
      including the normalisation `Path(...)` applies. */
  datatype PathOps = PathOps(
    expandUser: string -> Path,
    expandVars: Path -> Path,
    resolve: Path -> Path,
    absolute: Path -> Path)

  /** Index of the first candidate that exists, or |candidates| if none does. */
  function FirstExistingIndex(candidates: seq<Path>, fs: set<Path>): (k: nat)
    ensures k <= |candidates|
    ensures k < |candidates| ==> candidates[k] in fs
    ensures forall j :: 0 <= j < k ==> candidates[j] !in fs
  {
    if candidates == [] then 0
    else if candidates[0] in fs then 0
    else 1 + FirstExistingIndex(candidates[1..], fs)
  }

  /** First-match-wins lookup: the first candidate that exists, if any. */
  function FirstExisting(candidates: seq<Path>, fs: set<Path>): (r: Option<Path>)
    ensures r.Some? ==> r.value in fs
    ensures r.None? <==> forall j :: 0 <= j < |candidates| ==> candidates[j] !in fs
    ensures r.Some? ==>
      exists k :: 0 <= k < |candidates| && candidates[k] == r.value && forall j :: 0 <= j < k ==> candidates[j] !in fs
  {
    var k := FirstExistingIndex(candidates, fs);
    if k < |candidates| then Some(candidates[k]) else None
  }
}
