/**
 * Resolving the settings and the temporary file's location (xdg_cache_dir,
 * weechat_cache_dir and the first half of edit in edit.py). The environment
 * is a map from variable names to values; home-directory expansion and the
 * existence test on a path are supplied by the caller.
 */
module Options {

  type Env = map<string, string>

  const DefaultEditor: string := "vim -f"
  const DefaultTerminal: string := "xterm"
  const DefaultExtension: string := "md"
  const DefaultXdgCache: string := "~/.cache/"
  const DefaultWeechatHome: string := "~/.weechat/"

  /** Python's `env.get(name, default)`. */
  function EnvGet(env: Env, name: string, default: string): (value: string)
    ensures name in env ==> value == env[name]
    ensures name !in env ==> value == default
  {
    if name in env then env[name] else default
  }

  /**
   * The editor: the configured value if non-empty, else $EDITOR whenever it
   * is set (an empty $EDITOR stays empty), else "vim -f".
   */
  function ResolveEditor(configured: string, env: Env): (editor: string)
    ensures editor == configured || editor == DefaultEditor || ("EDITOR" in env && editor == env["EDITOR"])
    ensures configured != "" ==> editor == configured
  {
    if configured != "" then configured else EnvGet(env, "EDITOR", DefaultEditor)
  }

  /**
   * The terminal: the configured value if non-empty, else $TERMCMD if set
   * and non-empty, else "xterm".
   */
  function ResolveTerminal(configured: string, env: Env): (terminal: string)
    ensures terminal != ""
    ensures terminal == configured || terminal == DefaultTerminal || ("TERMCMD" in env && terminal == env["TERMCMD"])
    ensures configured != "" ==> terminal == configured
  {
    var fromConfigOrEnv := if configured != "" then configured else EnvGet(env, "TERMCMD", "");
    if fromConfigOrEnv != "" then fromConfigOrEnv else DefaultTerminal
  }

  /** The editor resolves to "" exactly when it is unconfigured and $EDITOR is set to "". */
  lemma ResolveEditorEmpty(configured: string, env: Env)
    ensures ResolveEditor(configured, env) == "" <==> configured == "" && "EDITOR" in env && env["EDITOR"] == ""
  {
  }

  /** Each layer is used exactly when the layers above it give nothing usable. */
  lemma ResolutionOrder(configured: string, env: Env)
    ensures configured == "" && "EDITOR" in env ==> ResolveEditor(configured, env) == env["EDITOR"]
    ensures configured == "" && "EDITOR" !in env ==> ResolveEditor(configured, env) == DefaultEditor
    ensures configured == "" && "TERMCMD" in env && env["TERMCMD"] != "" ==> ResolveTerminal(configured, env) == env["TERMCMD"]
    ensures configured == "" && ("TERMCMD" !in env || env["TERMCMD"] == "") ==> ResolveTerminal(configured, env) == DefaultTerminal
  {
  }

  predicate IsAbsolute(path: string) {
    |path| > 0 && path[0] == '/'
  }

  /** POSIX `os.path.join(dir, name)`. */
  function Join(dir: string, name: string): (path: string)
    ensures IsAbsolute(name) ==> path == name
    ensures !IsAbsolute(name) ==> path == dir + name || path == dir + "/" + name
    ensures !IsAbsolute(name) && path != dir + name ==> dir != "" && dir[|dir| - 1] != '/'
  {
    if IsAbsolute(name) then name
    else if dir == "" || dir[|dir| - 1] == '/' then dir + name
    else dir + "/" + name
  }

  /** Joining a relative name never doubles nor drops a separator. */
  lemma JoinSeparator(dir: string, name: string)
    requires !IsAbsolute(name)
    ensures dir == "" || dir[|dir| - 1] == '/' ==> Join(dir, name) == dir + name
    ensures dir != "" && dir[|dir| - 1] != '/' ==> Join(dir, name) == dir + "/" + name
  {
  }

  /** $XDG_CACHE_HOME (default "~/.cache/") with the home directory expanded. */
  function XdgCacheDir(env: Env, expandUser: string -> string): (dir: string)
    ensures "XDG_CACHE_HOME" in env ==> dir == expandUser(env["XDG_CACHE_HOME"])
    ensures "XDG_CACHE_HOME" !in env ==> dir == expandUser(DefaultXdgCache)
  {
    expandUser(EnvGet(env, "XDG_CACHE_HOME", DefaultXdgCache))
  }

  /** The "weechat" directory under the XDG cache if it exists, else $WEECHAT_HOME (default "~/.weechat/"). */
  function CacheDir(env: Env, expandUser: string -> string, pathExists: string -> bool): (dir: string)
    ensures pathExists(Join(XdgCacheDir(env, expandUser), "weechat")) ==> dir == Join(XdgCacheDir(env, expandUser), "weechat")
    ensures !pathExists(Join(XdgCacheDir(env, expandUser), "weechat")) ==> dir == expandUser(EnvGet(env, "WEECHAT_HOME", DefaultWeechatHome))
  {
    var candidate := Join(XdgCacheDir(env, expandUser), "weechat");
    if pathExists(candidate) then candidate else expandUser(EnvGet(env, "WEECHAT_HOME", DefaultWeechatHome))
  }

  /** The extension argument, "md" when none was given. */
  function Extension(args: string): (ext: string)
    ensures ext != ""
    ensures args == "" ==> ext == DefaultExtension
    ensures args != "" ==> ext == args
  {
    if args == "" then DefaultExtension else args
  }

  /** The temporary file's name. */
  function TempName(args: string): (name: string)
    ensures |name| > 8 && name[..8] == "message." && name[8..] == Extension(args)
  {
    "message." + Extension(args)
  }

  /** The temporary file: "message.<ext>" directly under the cache directory. */
  function TempPath(cacheDir: string, args: string): (path: string)
    ensures |path| == |cacheDir| + |TempName(args)| || |path| == |cacheDir| + |TempName(args)| + 1
    ensures path[..|cacheDir|] == cacheDir
    ensures path[|path| - |TempName(args)|..] == TempName(args)
    ensures path[|cacheDir|..|path| - |TempName(args)|] in {"", "/"}
  {
    var name := TempName(args);
    var path := Join(cacheDir, name);
    assert path == cacheDir + name ==> path[|cacheDir|..|path| - |name|] == "";
    assert path == cacheDir + "/" + name ==> path[|cacheDir|..|path| - |name|] == "/";
    path
  }

  /** Without an argument the file is "<cacheDir>/message.md"; with one, the argument is used verbatim. */
  lemma TempPathExamples(args: string)
    ensures TempPath("/home/u/.cache/weechat", "") == "/home/u/.cache/weechat/message.md"
    ensures args != "" ==> TempPath("/tmp/", args) == "/tmp/message." + args
  {
  }
}
