/** Installation-path defaults: where the interpreter finds its own files.

    The configure-time settings, the process environment and the platform's
    path rules are inputs; the file-scope `V…` variables of defaults.in.cc form a
    `State` value that `InitDefaults` and `InstallDefaults` transform. An
    unset environment variable reads as the empty string, as `getenv` does.
 */
module Defaults {

  /** The process environment. */
  type Env = map<string, string>

  /** `getenv`: the value of `name`, or "" when it is not set. */
  function GetEnv(env: Env, name: string): (r: string)
    ensures name !in env ==> r == ""
    ensures name in env ==> r == env[name]
  {
    if name in env then env[name] else ""
  }

  /** The platform's directory separator and its test for an absolute path name. */
  datatype Platform = Platform(sep: char, isAbsolute: string -> bool)

  /** The directory variables `init_defaults` computes. */
  datatype DirVar =
    | BinDir | DataDir | DatarootDir | IncludeDir | LibDir | LibexecDir
    | LocalVerArchLibDir | LocalApiArchLibDir | LocalArchLibDir | ArchLibDir
    | LocalVerOctFileDir | LocalApiOctFileDir | LocalOctFileDir | OctFileDir
    | LocalVerFcnFileDir | LocalApiFcnFileDir | LocalFcnFileDir | FcnFileDir
    | OctDataDir | OctEtcDir | OctIncludeDir | OctLibDir | OctLocaleDir | OctTestsDir
    | InfoDir | ManDir | Man1Dir | ImageDir
    | LocalStartupfileDir | StartupfileDir

  /** Which installation root a directory is relative to. */
  datatype Anchor = Home | ExecHome

  /** Architecture-dependent directories live under the exec home, the rest under the home. */
  function AnchorOf(v: DirVar): Anchor
  {
    match v
    case BinDir => ExecHome
    case LibDir => ExecHome
    case LibexecDir => ExecHome
    case LocalVerArchLibDir => ExecHome
    case LocalApiArchLibDir => ExecHome
    case LocalArchLibDir => ExecHome
    case ArchLibDir => ExecHome
    case LocalVerOctFileDir => ExecHome
    case LocalApiOctFileDir => ExecHome
    case LocalOctFileDir => ExecHome
    case OctFileDir => ExecHome
    case OctLibDir => ExecHome
    case _ => Home
  }

  /** Values fixed when the program was configured: the two prefixes, each
      directory relative to its root (or absolute), and the file names. */
  datatype Configure = Configure(
    prefix: string,
    execPrefix: string,
    relDir: DirVar -> string,
    man1Ext: string,
    infoFile: string,
    texiMacrosFile: string,
    docCacheFile: string)

  /** The module-level variables. `infoFile`, `infoProgram`, `texiMacrosFile`,
      `docCacheFile` and `builtInDocstringsFile` may already hold a value
      (given on the command line, say) before `InstallDefaults` runs. */
  datatype State = State(
    initialized: bool,
    octaveHome: string,
    octaveExecHome: string,
    dirs: DirVar -> string,
    man1Ext: string,
    localSiteDefaultsFile: string,
    siteDefaultsFile: string,
    infoFile: string,
    infoProgram: string,
    texiMacrosFile: string,
    docCacheFile: string,
    builtInDocstringsFile: string)

  /** Every variable empty and nothing initialised yet. */
  function Fresh(): (st: State)
    ensures !st.initialized
  {
    State(false, "", "", _ => "", "", "", "", "", "", "", "", "")
  }

  // ---------------------------------------------------------------------------
  // Path construction

  /** `std::replace (s, '/', sep)`: every '/' becomes `sep`, nothing else changes. */
  function ReplaceSlashes(s: string, sep: char): (r: string)
    ensures |r| == |s|
    ensures forall i :: 0 <= i < |s| ==> r[i] == (if s[i] == '/' then sep else s[i])
    ensures sep != '/' ==> '/' !in r
  {
    if s == [] then []
    else [if s[0] == '/' then sep else s[0]] + ReplaceSlashes(s[1..], sep)
  }

  /** `prepend_home_dir`: a relative name is placed under `hd`; on a platform
      whose separator is not '/', every '/' in the result becomes the separator. */
  function PrependHomeDir(p: Platform, hd: string, s: string): (r: string)
    ensures p.sep == '/' ==> r == if p.isAbsolute(s) then s else hd + "/" + s
    ensures p.sep != '/' ==> '/' !in r
    ensures |r| == if p.isAbsolute(s) then |s| else |hd| + 1 + |s|
    ensures !p.isAbsolute(s) ==> r[|hd|] == p.sep
  {
    var joined := if p.isAbsolute(s) then s else hd + [p.sep] + s;
    if p.sep != '/' then ReplaceSlashes(joined, p.sep) else joined
  }

  /** The result of `prepend_home_dir` ends with the name it was given, with
      its separators converted: it names that path under `hd`. */
  lemma PrependKeepsName(p: Platform, hd: string, s: string)
    ensures var r := PrependHomeDir(p, hd, s);
            r[|r| - |s|..] == if p.sep == '/' then s else ReplaceSlashes(s, p.sep)
    ensures !p.isAbsolute(s) ==> var r := PrependHomeDir(p, hd, s);
            r[..|hd|] == if p.sep == '/' then hd else ReplaceSlashes(hd, p.sep)
  {
    var r := PrependHomeDir(p, hd, s);
    if p.sep != '/' {
      var joined := if p.isAbsolute(s) then s else hd + [p.sep] + s;
      assert r == ReplaceSlashes(joined, p.sep);
      assert r[|r| - |s|..] == ReplaceSlashes(s, p.sep);
      if !p.isAbsolute(s) {
        assert r[..|hd|] == ReplaceSlashes(hd, p.sep);
      }
    }
  }

  /** Converting separators twice converts them once. */
  lemma ReplaceIdempotent(s: string, sep: char)
    ensures ReplaceSlashes(ReplaceSlashes(s, sep), sep) == ReplaceSlashes(s, sep)
  {
  }

  // ---------------------------------------------------------------------------
  // Initialisation

  /** The two installation roots `set_octave_home` determines. */
  datatype Homes = Homes(home: string, execHome: string)

  /** `set_octave_home`: the home is `OCTAVE_HOME` when set and the configured
      prefix otherwise; the exec home is `OCTAVE_EXEC_HOME` when set, else
      `OCTAVE_HOME` when the two configured prefixes agree and it is set,
      else the configured exec prefix. */
  function SetOctaveHome(cfg: Configure, env: Env): (h: Homes)
    ensures GetEnv(env, "OCTAVE_HOME") != "" ==> h.home == GetEnv(env, "OCTAVE_HOME")
    ensures GetEnv(env, "OCTAVE_HOME") == "" ==> h.home == cfg.prefix
    ensures GetEnv(env, "OCTAVE_EXEC_HOME") != "" ==> h.execHome == GetEnv(env, "OCTAVE_EXEC_HOME")
    ensures GetEnv(env, "OCTAVE_EXEC_HOME") == "" && cfg.prefix == cfg.execPrefix && GetEnv(env, "OCTAVE_HOME") != "" ==>
              h.execHome == GetEnv(env, "OCTAVE_HOME")
    ensures GetEnv(env, "OCTAVE_EXEC_HOME") == "" && (cfg.prefix != cfg.execPrefix || GetEnv(env, "OCTAVE_HOME") == "") ==>
              h.execHome == cfg.execPrefix
  {
    var op := cfg.prefix;
    var oep := cfg.execPrefix;
    var oh := GetEnv(env, "OCTAVE_HOME");
    var oeh := GetEnv(env, "OCTAVE_EXEC_HOME");
    Homes(if oh == "" then op else oh,
          if oeh != "" then oeh else if op == oep && oh != "" then oh else oep)
  }

  /** With one configured prefix and no `OCTAVE_EXEC_HOME`, both roots coincide. */
  lemma SinglePrefixOneRoot(cfg: Configure, env: Env)
    requires cfg.prefix == cfg.execPrefix
    requires GetEnv(env, "OCTAVE_EXEC_HOME") == ""
    ensures SetOctaveHome(cfg, env).execHome == SetOctaveHome(cfg, env).home
  {
  }

  /** With neither variable set, the roots are the configured prefixes. */
  lemma UnsetEnvUsesPrefixes(cfg: Configure, env: Env)
    requires "OCTAVE_HOME" !in env && "OCTAVE_EXEC_HOME" !in env
    ensures SetOctaveHome(cfg, env) == Homes(cfg.prefix, cfg.execPrefix)
  {
  }

  /** `set_local_site_defaults_file` / `set_site_defaults_file`: the
      environment override when set, else `octaverc` in the given directory,
      joined with a literal '/'. */
  function SiteDefaultsFile(env: Env, variable: string, dir: string): (r: string)
    ensures GetEnv(env, variable) != "" ==> r == GetEnv(env, variable)
    ensures GetEnv(env, variable) == "" ==> r == dir + "/octaverc"
  {
    var f := GetEnv(env, variable);
    if f == "" then dir + "/octaverc" else f
  }

  /** The root a directory variable is placed under. */
  function RootOf(h: Homes, v: DirVar): string
  {
    if AnchorOf(v) == Home then h.home else h.execHome
  }

  /** `init_defaults`: does nothing once it has run; otherwise sets both roots
      first, then every directory under its root, the man-page extension and
      the two site startup files, and marks the defaults initialised. */
  function InitDefaults(p: Platform, cfg: Configure, env: Env, st: State): (r: State)
    ensures r.initialized
    ensures st.initialized ==> r == st
    ensures !st.initialized ==> r.octaveHome == SetOctaveHome(cfg, env).home
    ensures !st.initialized ==> r.octaveExecHome == SetOctaveHome(cfg, env).execHome
    ensures !st.initialized ==> forall v :: r.dirs(v) == PrependHomeDir(p, if AnchorOf(v) == Home then r.octaveHome else r.octaveExecHome, cfg.relDir(v))
    ensures !st.initialized ==> r.man1Ext == cfg.man1Ext
    ensures !st.initialized ==> r.localSiteDefaultsFile == SiteDefaultsFile(env, "OCTAVE_SITE_INITFILE", r.dirs(LocalStartupfileDir))
    ensures !st.initialized ==> r.siteDefaultsFile == SiteDefaultsFile(env, "OCTAVE_VERSION_INITFILE", r.dirs(StartupfileDir))
    ensures r.infoFile == st.infoFile && r.infoProgram == st.infoProgram
    ensures r.texiMacrosFile == st.texiMacrosFile && r.docCacheFile == st.docCacheFile
    ensures r.builtInDocstringsFile == st.builtInDocstringsFile
  {
    if st.initialized then st
    else
      var h := SetOctaveHome(cfg, env);
      var dirs := (v: DirVar) => PrependHomeDir(p, RootOf(h, v), cfg.relDir(v));
      st.(initialized := true,
          octaveHome := h.home,
          octaveExecHome := h.execHome,
          dirs := dirs,
          man1Ext := cfg.man1Ext,
          localSiteDefaultsFile := SiteDefaultsFile(env, "OCTAVE_SITE_INITFILE", dirs(LocalStartupfileDir)),
          siteDefaultsFile := SiteDefaultsFile(env, "OCTAVE_VERSION_INITFILE", dirs(StartupfileDir)))
  }

  /** A second `init_defaults` changes nothing, even when the environment
      has changed in between. */
  lemma InitIdempotent(p: Platform, cfg: Configure, env: Env, env2: Env, st: State)
    ensures InitDefaults(p, cfg, env2, InitDefaults(p, cfg, env, st)) == InitDefaults(p, cfg, env, st)
  {
  }

  /** On a platform whose separator is not '/', no directory `init_defaults`
      computes contains '/'; the site startup files, joined with a literal
      '/', do when no environment override is set. */
  lemma SeparatorsConverted(p: Platform, cfg: Configure, env: Env, st: State)
    requires !st.initialized && p.sep != '/'
    ensures forall v :: '/' !in InitDefaults(p, cfg, env, st).dirs(v)
    ensures GetEnv(env, "OCTAVE_SITE_INITFILE") == "" ==> '/' in InitDefaults(p, cfg, env, st).localSiteDefaultsFile
  {
    var r := InitDefaults(p, cfg, env, st);
    if GetEnv(env, "OCTAVE_SITE_INITFILE") == "" {
      var d := r.dirs(LocalStartupfileDir);
      assert r.localSiteDefaultsFile[|d|] == '/';
    }
  }

  // ---------------------------------------------------------------------------
  // Set-if-empty helpers and installation

  /** `set_default_info_file`: kept when already set; else `OCTAVE_INFO_FILE`
      when set, else the configured info file under the home. */
  function SetDefaultInfoFile(p: Platform, cfg: Configure, env: Env, st: State): (r: State)
    ensures st.infoFile != "" ==> r == st
    ensures st.infoFile == "" ==> r == st.(infoFile :=
              if GetEnv(env, "OCTAVE_INFO_FILE") != "" then GetEnv(env, "OCTAVE_INFO_FILE")
              else PrependHomeDir(p, st.octaveHome, cfg.infoFile))
  {
    if st.infoFile != "" then st
    else
      var stdInfoFile := PrependHomeDir(p, st.octaveHome, cfg.infoFile);
      var octInfoFile := GetEnv(env, "OCTAVE_INFO_FILE");
      st.(infoFile := if octInfoFile == "" then stdInfoFile else octInfoFile)
  }

  /** `set_default_info_prog`: kept when already set; else `OCTAVE_INFO_PROGRAM`
      when set, else "info". Never empty afterwards. */
  function SetDefaultInfoProg(env: Env, st: State): (r: State)
    ensures r.infoProgram != ""
    ensures st.infoProgram != "" ==> r == st
    ensures st.infoProgram == "" && GetEnv(env, "OCTAVE_INFO_PROGRAM") == "" ==> r == st.(infoProgram := "info")
    ensures st.infoProgram == "" && GetEnv(env, "OCTAVE_INFO_PROGRAM") != "" ==>
              r == st.(infoProgram := GetEnv(env, "OCTAVE_INFO_PROGRAM"))
  {
    if st.infoProgram != "" then st
    else
      var prog := GetEnv(env, "OCTAVE_INFO_PROGRAM");
      st.(infoProgram := if prog == "" then "info" else prog)
  }

  /** `set_default_texi_macros_file`: kept when already set; else
      `OCTAVE_TEXI_MACROS_FILE` when set, else the configured file under the home. */
  function SetDefaultTexiMacrosFile(p: Platform, cfg: Configure, env: Env, st: State): (r: State)
    ensures st.texiMacrosFile != "" ==> r == st
    ensures st.texiMacrosFile == "" ==> r == st.(texiMacrosFile :=
              if GetEnv(env, "OCTAVE_TEXI_MACROS_FILE") != "" then GetEnv(env, "OCTAVE_TEXI_MACROS_FILE")
              else PrependHomeDir(p, st.octaveHome, cfg.texiMacrosFile))
  {
    if st.texiMacrosFile != "" then st
    else
      var defFile := PrependHomeDir(p, st.octaveHome, cfg.texiMacrosFile);
      var envFile := GetEnv(env, "OCTAVE_TEXI_MACROS_FILE");
      st.(texiMacrosFile := if envFile == "" then defFile else envFile)
  }

  /** `set_default_doc_cache_file`: kept when already set; else
      `OCTAVE_DOC_CACHE_FILE` when set, else the configured file under the home. */
  function SetDefaultDocCacheFile(p: Platform, cfg: Configure, env: Env, st: State): (r: State)
    ensures st.docCacheFile != "" ==> r == st
    ensures st.docCacheFile == "" ==> r == st.(docCacheFile :=
              if GetEnv(env, "OCTAVE_DOC_CACHE_FILE") != "" then GetEnv(env, "OCTAVE_DOC_CACHE_FILE")
              else PrependHomeDir(p, st.octaveHome, cfg.docCacheFile))
  {
    if st.docCacheFile != "" then st
    else
      var defFile := PrependHomeDir(p, st.octaveHome, cfg.docCacheFile);
      var envFile := GetEnv(env, "OCTAVE_DOC_CACHE_FILE");
      st.(docCacheFile := if envFile == "" then defFile else envFile)
  }

  /** `set_built_in_docstrings_file`: kept when already set; else
      `OCTAVE_BUILT_IN_DOCSTRINGS_FILE` when set, else `built-in-docstrings`
      in the architecture-independent etc directory. Never empty afterwards. */
  function SetBuiltInDocstringsFile(p: Platform, env: Env, st: State): (r: State)
    ensures r.builtInDocstringsFile != ""
    ensures st.builtInDocstringsFile != "" ==> r == st
    ensures st.builtInDocstringsFile == "" && GetEnv(env, "OCTAVE_BUILT_IN_DOCSTRINGS_FILE") == "" ==>
              r == st.(builtInDocstringsFile := st.dirs(OctEtcDir) + [p.sep] + "built-in-docstrings")
    ensures st.builtInDocstringsFile == "" && GetEnv(env, "OCTAVE_BUILT_IN_DOCSTRINGS_FILE") != "" ==>
              r == st.(builtInDocstringsFile := GetEnv(env, "OCTAVE_BUILT_IN_DOCSTRINGS_FILE"))
  {
    if st.builtInDocstringsFile != "" then st
    else
      var df := GetEnv(env, "OCTAVE_BUILT_IN_DOCSTRINGS_FILE");
      st.(builtInDocstringsFile := if df == "" then st.dirs(OctEtcDir) + [p.sep] + "built-in-docstrings" else df)
  }

  /** `install_defaults`: `init_defaults` if it has not run, then the five
      set-if-empty helpers in order. */
  function InstallDefaults(p: Platform, cfg: Configure, env: Env, st: State): (r: State)
    ensures r.initialized
    ensures r.infoProgram != "" && r.builtInDocstringsFile != ""
    ensures var i := InitDefaults(p, cfg, env, st);
            r.octaveHome == i.octaveHome && r.octaveExecHome == i.octaveExecHome && r.dirs == i.dirs &&
            r.man1Ext == i.man1Ext && r.localSiteDefaultsFile == i.localSiteDefaultsFile &&
            r.siteDefaultsFile == i.siteDefaultsFile
    ensures st.infoFile != "" ==> r.infoFile == st.infoFile
    ensures st.infoFile == "" ==>
              r.infoFile == (if GetEnv(env, "OCTAVE_INFO_FILE") != "" then GetEnv(env, "OCTAVE_INFO_FILE")
                        else PrependHomeDir(p, r.octaveHome, cfg.infoFile))
    ensures st.texiMacrosFile == "" ==>
              r.texiMacrosFile == (if GetEnv(env, "OCTAVE_TEXI_MACROS_FILE") != "" then GetEnv(env, "OCTAVE_TEXI_MACROS_FILE")
                        else PrependHomeDir(p, r.octaveHome, cfg.texiMacrosFile))
    ensures st.docCacheFile == "" ==>
              r.docCacheFile == (if GetEnv(env, "OCTAVE_DOC_CACHE_FILE") != "" then GetEnv(env, "OCTAVE_DOC_CACHE_FILE")
                        else PrependHomeDir(p, r.octaveHome, cfg.docCacheFile))
    ensures st.infoProgram == "" ==>
              r.infoProgram == (if GetEnv(env, "OCTAVE_INFO_PROGRAM") != "" then GetEnv(env, "OCTAVE_INFO_PROGRAM")
                        else "info")
    ensures st.builtInDocstringsFile == "" ==>
              r.builtInDocstringsFile ==
                (if GetEnv(env, "OCTAVE_BUILT_IN_DOCSTRINGS_FILE") != "" then GetEnv(env, "OCTAVE_BUILT_IN_DOCSTRINGS_FILE")
                 else r.dirs(OctEtcDir) + [p.sep] + "built-in-docstrings")
    ensures st.infoProgram != "" ==> r.infoProgram == st.infoProgram
    ensures st.texiMacrosFile != "" ==> r.texiMacrosFile == st.texiMacrosFile
    ensures st.docCacheFile != "" ==> r.docCacheFile == st.docCacheFile
    ensures st.builtInDocstringsFile != "" ==> r.builtInDocstringsFile == st.builtInDocstringsFile
  {
    var s0 := InitDefaults(p, cfg, env, st);
    var s1 := SetDefaultInfoFile(p, cfg, env, s0);
    var s2 := SetDefaultInfoProg(env, s1);
    var s3 := SetDefaultTexiMacrosFile(p, cfg, env, s2);
    var s4 := SetDefaultDocCacheFile(p, cfg, env, s3);
    SetBuiltInDocstringsFile(p, env, s4)
  }

  /** A second `install_defaults` changes nothing. */
  lemma InstallIdempotent(p: Platform, cfg: Configure, env: Env, st: State)
    ensures InstallDefaults(p, cfg, env, InstallDefaults(p, cfg, env, st)) == InstallDefaults(p, cfg, env, st)
  {
  }

  // ---------------------------------------------------------------------------
  // Getters

  /** The values the `octave::config` getters return. */
  datatype Query =
    | OctaveHome | OctaveExecHome
    | Dir(v: DirVar)
    | Man1Ext
    | LocalSiteDefaultsFile | SiteDefaultsFileQ

  /** The variable a getter reads. */
  function Read(st: State, q: Query): string
  {
    match q
    case OctaveHome => st.octaveHome
    case OctaveExecHome => st.octaveExecHome
    case Dir(v) => st.dirs(v)
    case Man1Ext => st.man1Ext
    case LocalSiteDefaultsFile => st.localSiteDefaultsFile
    case SiteDefaultsFileQ => st.siteDefaultsFile
  }

  /** The `RETURN` getters: run `init_defaults` first when it has not run,
      then read the variable. Returns the state afterwards and the value. */
  function Get(p: Platform, cfg: Configure, env: Env, st: State, q: Query): (r: (State, string))
    ensures r.0.initialized
    ensures st.initialized ==> r.0 == st
    ensures !st.initialized ==> r.0 == InitDefaults(p, cfg, env, st)
    ensures r.1 == Read(r.0, q)
  {
    var s := if !st.initialized then InitDefaults(p, cfg, env, st) else st;
    (s, Read(s, q))
  }

  /** Asking twice gives the same answer and leaves the state as the first call left it. */
  lemma GetStable(p: Platform, cfg: Configure, env: Env, st: State, q1: Query, q2: Query)
    ensures var (s1, _) := Get(p, cfg, env, st, q1);
            Get(p, cfg, env, s1, q2) == (s1, Read(s1, q2))
    ensures var (s1, v1) := Get(p, cfg, env, st, q1);
            Get(p, cfg, env, s1, q1).1 == v1
  {
  }

  /** A getter on a fresh state reports what `init_defaults` computes: the
      home getter, for instance, honours `OCTAVE_HOME`. */
  lemma GetOnFresh(p: Platform, cfg: Configure, env: Env)
    ensures Get(p, cfg, env, Fresh(), OctaveHome).1 == SetOctaveHome(cfg, env).home
    ensures forall v :: Get(p, cfg, env, Fresh(), Dir(v)).1 ==
              PrependHomeDir(p, RootOf(SetOctaveHome(cfg, env), v), cfg.relDir(v))
  {
  }

  /** After `install_defaults` a getter returns the installed value and
      changes nothing; a getter that runs first instead reports the same value. */
  lemma GetAgreesWithInstall(p: Platform, cfg: Configure, env: Env, st: State, q: Query)
    ensures var s := InstallDefaults(p, cfg, env, st); Get(p, cfg, env, s, q) == (s, Read(s, q))
    ensures Get(p, cfg, env, st, q).1 == Read(InstallDefaults(p, cfg, env, st), q)
  {
  }
}
