/**
 * The settings of `vector_index_mcp/config.py`: the embedding-dimension table and the
 * one-time normalisation `get_vector_index_settings` applies (project path made absolute,
 * a relative LanceDB URI placed under it, the log level upper-cased). The environment is a
 * map; `os.getcwd()` and `os.path.abspath` are inputs.
 */
module Config {
  import opened Wrappers
  import Watcher

  type Env = map<string, string>

  const DEFAULT_LANCEDB_URI: string := ".lancedb"
  const DEFAULT_MODEL: string := "all-MiniLM-L6-v2"
  const MPNET_MODEL: string := "all-mpnet-base-v2"
  const DEFAULT_LOG_LEVEL: string := "INFO"
  const DEFAULT_CHUNK_SIZE: nat := 1000
  const DEFAULT_CHUNK_OVERLAP: nat := 200
  const DEFAULT_IGNORE_PATTERNS: seq<string> := [".*", "*.db", "*.sqlite", "*.log", "node_modules/*", "venv/*", ".git/*"]

  /** The fields of `Settings` this model follows. */
  datatype Settings = Settings(
    projectPath: string,
    lancedbUri: string,
    embeddingModelName: string,
    logLevel: string,
    chunkSize: nat,
    chunkOverlap: nat,
    ignorePatterns: seq<string>)

  /** `Settings.embedding_dim`: a fixed table of two models; any other name raises. */
  function EmbeddingDim(s: Settings): (r: Result<nat, string>)
    ensures s.embeddingModelName == DEFAULT_MODEL ==> r == Success(384)
    ensures s.embeddingModelName == MPNET_MODEL ==> r == Success(768)
    ensures r.Failure? <==> s.embeddingModelName != DEFAULT_MODEL && s.embeddingModelName != MPNET_MODEL
    ensures r.Failure? ==> r.error == "Unknown embedding dimension for model: " + s.embeddingModelName
  {
    if s.embeddingModelName == DEFAULT_MODEL then Success(384)
    else if s.embeddingModelName == MPNET_MODEL then Success(768)
    else Failure("Unknown embedding dimension for model: " + s.embeddingModelName)
  }

  /** An environment variable's value, or the field default when it is unset (what `BaseSettings` reads). */
  function Lookup(env: Env, name: string, default: string): string
  {
    if name in env then env[name] else default
  }

  /** `os.getenv(name)` passes an `if`: set and non-empty. */
  predicate SetNonEmpty(env: Env, name: string)
  {
    name in env && env[name] != ""
  }

  /** `Settings()`: each string field from its environment variable, else its default. */
  function Loaded(env: Env, cwd: string): Settings
  {
    Settings(Lookup(env, "PROJECT_PATH", cwd), Lookup(env, "LANCEDB_URI", DEFAULT_LANCEDB_URI),
      Lookup(env, "EMBEDDING_MODEL_NAME", DEFAULT_MODEL), Lookup(env, "LOG_LEVEL", DEFAULT_LOG_LEVEL),
      DEFAULT_CHUNK_SIZE, DEFAULT_CHUNK_OVERLAP, DEFAULT_IGNORE_PATTERNS)
  }

  /** `os.path.isabs` for POSIX paths. */
  predicate IsAbs(p: string)
  {
    |p| > 0 && p[0] == '/'
  }

  function UpperChar(c: char): char
  {
    if 'a' <= c <= 'z' then (c as int - 'a' as int + 'A' as int) as char else c
  }

  /** `str.upper` on ASCII letters. */
  function Upper(s: string): (u: string)
    ensures |u| == |s| && forall i :: 0 <= i < |s| ==> u[i] == UpperChar(s[i])
    ensures forall i :: 0 <= i < |u| ==> !('a' <= u[i] <= 'z')
  {
    seq(|s|, i requires 0 <= i < |s| => UpperChar(s[i]))
  }

  /** Joining anything onto an absolute directory gives an absolute path. */
  lemma JoinUnderAbsolute(dir: string, p: string)
    requires IsAbs(dir)
    ensures IsAbs(Watcher.JoinPath(dir, p))
  {
    if !(|p| > 0 && p[0] == '/') {
      if dir[|dir| - 1] == '/' {
        assert (dir + p)[0] == dir[0];
      } else {
        assert (dir + "/" + p)[0] == dir[0];
      }
    }
  }

  /**
   * The normalisation of `get_vector_index_settings`:
   * the project path is the abspath of `PROJECT_PATH` when set, else of the working
   * directory; the LanceDB URI (from `LANCEDB_URI` when set, else ".lancedb") is kept
   * when absolute and joined onto the project path otherwise; a non-empty `LOG_LEVEL`
   * is upper-cased. Both branches the code takes for each variable agree with this.
   */
  function Normalized(env: Env, cwd: string, abspath: string -> string): (s: Settings)
    ensures s.projectPath == abspath(Lookup(env, "PROJECT_PATH", cwd))
    ensures var uri := Lookup(env, "LANCEDB_URI", DEFAULT_LANCEDB_URI);
      s.lancedbUri == if IsAbs(uri) then uri else Watcher.JoinPath(s.projectPath, uri)
    ensures IsAbs(s.projectPath) ==> IsAbs(s.lancedbUri)
    ensures s.logLevel == if SetNonEmpty(env, "LOG_LEVEL") then Upper(env["LOG_LEVEL"]) else Lookup(env, "LOG_LEVEL", DEFAULT_LOG_LEVEL)
    ensures s.embeddingModelName == Lookup(env, "EMBEDDING_MODEL_NAME", DEFAULT_MODEL)
  {
    var base := Loaded(env, cwd);
    var projectPath := if SetNonEmpty(env, "PROJECT_PATH") then abspath(env["PROJECT_PATH"]) else abspath(base.projectPath);
    var lancedbUri :=
      if SetNonEmpty(env, "LANCEDB_URI") then
        (var e := env["LANCEDB_URI"]; if !IsAbs(e) then Watcher.JoinPath(projectPath, e) else e)
      else if !IsAbs(base.lancedbUri) then Watcher.JoinPath(projectPath, base.lancedbUri)
      else base.lancedbUri;
    var logLevel := if SetNonEmpty(env, "LOG_LEVEL") then Upper(env["LOG_LEVEL"]) else base.logLevel;
    var s := base.(projectPath := projectPath, lancedbUri := lancedbUri, logLevel := logLevel);
    if IsAbs(projectPath) then
      JoinUnderAbsolute(projectPath, Lookup(env, "LANCEDB_URI", DEFAULT_LANCEDB_URI));
      s
    else s
  }

  /** The module-level `_settings_instance` and `get_vector_index_settings`. */
  class SettingsHolder {
    var instance: Option<Settings>

    constructor ()
      ensures instance.None?
    {
      instance := None;
    }

    /** The first call builds and normalises the settings; every later call returns them without reading the environment. */
    method GetSettings(env: Env, cwd: string, abspath: string -> string) returns (s: Settings)
      modifies this
      ensures old(instance).Some? ==> s == old(instance).value && instance == old(instance)
      ensures old(instance).None? ==> s == Normalized(env, cwd, abspath) && instance == Some(s)
    {
      if instance.None? {
        instance := Some(Normalized(env, cwd, abspath));
      }
      s := instance.value;
    }
  }
}
