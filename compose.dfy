/**
 * The compose workflow of edit.py as state changes: the host buffer's input
 * line and cursor, the files on disk, the refresh requests and printed lines,
 * and the two globals FILE and FENCED. The editor process is not run: its
 * exit code and the state in which it leaves the temporary file are inputs.
 */
module Compose {
  import opened Recovery
  import opened Commands
  import opened Options
  import opened Messages

  /** What the editor left at the temporary path when it exited. */
  datatype FileState = Absent | Present(contents: string)

  /** The host's callback return codes WEECHAT_RC_OK and WEECHAT_RC_ERROR. */
  datatype ReturnCode = RcOk | RcError

  /** How the editor was started: handed to the host's process watcher, or run and waited for. */
  datatype Launch = Hooked(command: string) | Ran(argv: seq<string>)

  /** The three plugin settings as read from the host configuration. */
  datatype Settings = Settings(editor: string, terminal: string, runExternally: bool)

  /**
   * What the operating system answers: the environment, `~` expansion,
   * `os.path.exists` and `shlex.split`.
   */
  datatype Host = Host(
    env: Env,
    expandUser: string -> string,
    pathExists: string -> bool,
    split: string -> seq<string>)

  /** The files after the editor left `after` at path. */
  function AfterEditor(files: map<string, string>, path: string, after: FileState): (r: map<string, string>)
    ensures after.Present? ==> path in r && r[path] == after.contents
    ensures after.Absent? ==> path !in r
    ensures forall p :: p != path ==> (p in r <==> p in files) && (p in r ==> r[p] == files[p])
  {
    if after.Present? then files[path := after.contents] else files - {path}
  }

  class Session {
    /** The global FILE: the temporary file's path. */
    var path: string
    /** The global FENCED. */
    var fenced: bool
    /** The files on disk, by path. */
    var files: map<string, string>
    /** `os.remove` raises even on an existing file (a permission error). */
    const removeFails: bool
    /** Opening or reading an existing file raises. */
    const readFails: bool
    /** The buffer's "input" and "input_pos" properties. */
    var input: string
    var inputPos: int
    /** How many "/window refresh" commands were sent. */
    var refreshes: nat
    /** Lines printed to the core buffer. */
    var printed: seq<string>
    /** Commands handed to the host's `hook_process`. */
    var hooked: seq<string>

    /** The cursor lies within the input line. */
    ghost predicate Valid()
      reads this
    {
      0 <= inputPos <= |input|
    }

    /** The script as loaded: FILE is "" and FENCED is false. */
    constructor (input: string, inputPos: int, files: map<string, string>, removeFails: bool, readFails: bool)
      requires 0 <= inputPos <= |input|
      ensures Valid()
      ensures this.input == input && this.inputPos == inputPos && this.files == files
      ensures this.removeFails == removeFails && this.readFails == readFails
      ensures path == "" && !fenced && refreshes == 0 && printed == [] && hooked == []
    {
      this.input := input;
      this.inputPos := inputPos;
      this.files := files;
      this.removeFails := removeFails;
      this.readFails := readFails;
      path := "";
      fenced := false;
      refreshes := 0;
      printed := [];
      hooked := [];
    }

    /** The file's text is readable at FILE. */
    predicate Readable()
      reads this
    {
      path in files && !readFails
    }

    /**
     * Removes FILE when it can (a missing file or a failed removal is
     * ignored) and requests a refresh; the input line is untouched.
     */
    method Cleanup()
      requires Valid()
      modifies this`files, this`refreshes
      ensures Valid()
      ensures removeFails ==> files == old(files)
      ensures !removeFails ==> path !in files && files == old(files) - {path}
      ensures refreshes == old(refreshes) + 1
    {
      if !removeFails {
        files := files - {path};
      }
      refreshes := refreshes + 1;
    }

    /**
     * Reads FILE into the input line, with one trailing newline dropped and
     * fenced when FENCED is set, and puts the cursor at its end; leaves the
     * input alone when the file cannot be read. A refresh is requested
     * either way.
     */
    method ReadFile()
      requires Valid()
      modifies this`input, this`inputPos, this`refreshes
      ensures Valid()
      ensures old(Readable()) ==> input == Recover(ReadText(files[path]), fenced) && inputPos == |input|
      ensures !old(Readable()) ==> input == old(input) && inputPos == old(inputPos)
      ensures refreshes == old(refreshes) + 1
    {
      if path in files && !readFails {
        var text := ReadText(files[path]);
        text := Recover(text, fenced);
        input := text;
        inputPos := |text|;
      }
      refreshes := refreshes + 1;
    }

    /**
     * The completion callback of the external editor, which left `after` at
     * FILE. A nonzero code removes the file, prints the error and reports an
     * error, with the input line unchanged; code 0 applies the file and then
     * removes it.
     */
    method EditorProcessCb(code: int, err: string, after: FileState) returns (rc: ReturnCode)
      requires Valid()
      modifies this`files, this`input, this`inputPos, this`refreshes, this`printed
      ensures Valid()
      ensures files == if removeFails then AfterEditor(old(files), path, after) else AfterEditor(old(files), path, after) - {path}
      ensures code != 0 ==> rc == RcError
      ensures code != 0 ==> input == old(input) && inputPos == old(inputPos)
      ensures code != 0 ==> refreshes == old(refreshes) + 1 && printed == old(printed) + [ErrorLine(err, code)]
      ensures code == 0 ==> rc == RcOk && refreshes == old(refreshes) + 2 && printed == old(printed)
      ensures code == 0 && after.Present? && !readFails ==> input == Recover(ReadText(after.contents), fenced) && inputPos == |input|
      ensures code == 0 && (after.Absent? || readFails) ==> input == old(input) && inputPos == old(inputPos)
    {
      files := AfterEditor(files, path, after);
      if code != 0 {
        ReportFailure(code, err);
        rc := RcError;
      } else {
        ApplyAndRemove();
        rc := RcOk;
      }
    }

    /** The failure path of the completion callback: remove FILE, then print the error. */
    method ReportFailure(code: int, err: string)
      requires Valid()
      modifies this`files, this`refreshes, this`printed
      ensures Valid()
      ensures files == if removeFails then old(files) else old(files) - {path}
      ensures refreshes == old(refreshes) + 1 && printed == old(printed) + [ErrorLine(err, code)]
    {
      Cleanup();
      printed := printed + [ErrorLine(err, code)];
    }

    /** The success path of the completion callback: read FILE into the input line, then remove it. */
    method ApplyAndRemove()
      requires Valid()
      modifies this`files, this`input, this`inputPos, this`refreshes
      ensures Valid()
      ensures files == if removeFails then old(files) else old(files) - {path}
      ensures old(Readable()) ==> input == Recover(ReadText(old(files)[path]), fenced) && inputPos == |input|
      ensures !old(Readable()) ==> input == old(input) && inputPos == old(inputPos)
      ensures refreshes == old(refreshes) + 2
    {
      ReadFile();
      Cleanup();
    }

    /** Builds the external command for FILE and hands it to the host. */
    method HookEditorProcess(terminal: string, editor: string) returns (command: string)
      requires FormattableTemplate(editor) && FormattableTemplate(terminal)
      modifies this`hooked
      ensures command == TerminalCommand(terminal, EditorCommand(editor, path))
      ensures hooked == old(hooked) + [command]
    {
      var editorCmd := EditorCommand(editor, path);
      command := TerminalCommand(terminal, editorCmd);
      hooked := hooked + [command];
    }

    /**
     * Runs the editor on FILE and waits. The editor's arguments are the
     * split editor setting followed by FILE. A nonzero exit removes the file
     * BEFORE reading it back, so the input changes only if that removal
     * failed; a zero exit applies the file and never removes it.
     */
    method RunBlocking(editor: string, split: string -> seq<string>, code: int, after: FileState)
      returns (argv: seq<string>)
      requires Valid()
      modifies this`files, this`input, this`inputPos, this`refreshes
      ensures Valid()
      ensures |argv| == |split(editor)| + 1 && argv[..|argv| - 1] == split(editor) && argv[|argv| - 1] == path
      ensures code != 0 && !removeFails ==> files == AfterEditor(old(files), path, after) - {path}
      ensures code == 0 || removeFails ==> files == AfterEditor(old(files), path, after)
      ensures refreshes == old(refreshes) + (if code != 0 then 2 else 1)
      ensures Readable() ==> files[path] == after.contents && input == Recover(ReadText(files[path]), fenced) && inputPos == |input|
      ensures !Readable() ==> input == old(input) && inputPos == old(inputPos)
      ensures code != 0 && !removeFails ==> input == old(input) && inputPos == old(inputPos)
      ensures code == 0 && after.Present? ==> path in files
    {
      argv := split(editor) + [path];
      files := AfterEditor(files, path, after);
      if code != 0 {
        Cleanup();
      }
      ReadFile();
    }

    /** Points FILE at "message.<ext>" in the cache directory, sets FENCED and writes the input line there. */
    method Prepare(cacheDir: string, args: string, fenced: bool)
      requires Valid()
      modifies this`path, this`fenced, this`files
      ensures Valid()
      ensures path == TempPath(cacheDir, args) && this.fenced == fenced
      ensures files == old(files)[path := input]
    {
      path := TempPath(cacheDir, args);
      this.fenced := fenced;
      files := files[path := input];
    }

    /**
     * One compose command: resolve the settings, point FILE at
     * "message.<ext>" in the cache directory, set FENCED, write the input
     * line there, then start the editor externally or run it and wait.
     * `code` and `after` describe the editor in the blocking mode only.
     */
    method Edit(host: Host, settings: Settings, args: string, fenced: bool, code: int, after: FileState)
      returns (rc: ReturnCode, launch: Launch)
      requires Valid()
      requires settings.runExternally ==>
        FormattableTemplate(ResolveEditor(settings.editor, host.env)) &&
        FormattableTemplate(ResolveTerminal(settings.terminal, host.env))
      modifies this`path, this`fenced, this`files, this`input, this`inputPos, this`refreshes, this`hooked
      ensures Valid()
      ensures rc == RcOk
      ensures path == TempPath(CacheDir(host.env, host.expandUser, host.pathExists), args)
      ensures this.fenced == fenced
      ensures settings.runExternally ==>
        && launch == Hooked(TerminalCommand(ResolveTerminal(settings.terminal, host.env), EditorCommand(ResolveEditor(settings.editor, host.env), path)))
        && hooked == old(hooked) + [launch.command]
        && files == old(files)[path := old(input)]
        && input == old(input) && inputPos == old(inputPos) && refreshes == old(refreshes)
      ensures !settings.runExternally ==>
        && launch == Ran(host.split(ResolveEditor(settings.editor, host.env)) + [path])
        && hooked == old(hooked)
        && refreshes == old(refreshes) + (if code != 0 then 2 else 1)
      ensures !settings.runExternally && (code == 0 || removeFails) ==>
        files == AfterEditor(old(files)[path := old(input)], path, after)
      ensures !settings.runExternally && code != 0 && !removeFails ==>
        files == AfterEditor(old(files)[path := old(input)], path, after) - {path}
      ensures !settings.runExternally && Readable() ==>
        files[path] == after.contents && input == Recover(ReadText(after.contents), fenced) && inputPos == |input|
      ensures !settings.runExternally && !Readable() ==> input == old(input) && inputPos == old(inputPos)
      ensures !settings.runExternally && code == 0 && after.Present? ==> path in files
      ensures !settings.runExternally && code != 0 && !removeFails ==>
        input == old(input) && inputPos == old(inputPos) && path !in files
    {
      if settings.runExternally {
        launch := EditExternally(host, settings, args, fenced);
      } else {
        launch := EditBlocking(host, settings, args, fenced, code, after);
      }
      rc := RcOk;
    }

    /** The compose command in the external mode: prepare FILE, then hand the command to the host. */
    method EditExternally(host: Host, settings: Settings, args: string, fenced: bool) returns (launch: Launch)
      requires Valid()
      requires FormattableTemplate(ResolveEditor(settings.editor, host.env))
      requires FormattableTemplate(ResolveTerminal(settings.terminal, host.env))
      modifies this`path, this`fenced, this`files, this`hooked
      ensures Valid()
      ensures path == TempPath(CacheDir(host.env, host.expandUser, host.pathExists), args) && this.fenced == fenced
      ensures launch == Hooked(TerminalCommand(ResolveTerminal(settings.terminal, host.env), EditorCommand(ResolveEditor(settings.editor, host.env), path)))
      ensures hooked == old(hooked) + [launch.command]
      ensures files == old(files)[path := old(input)]
    {
      var editor := ResolveEditor(settings.editor, host.env);
      var terminal := ResolveTerminal(settings.terminal, host.env);
      Prepare(CacheDir(host.env, host.expandUser, host.pathExists), args, fenced);
      var command := HookEditorProcess(terminal, editor);
      launch := Hooked(command);
    }

    /** The compose command in the blocking mode: prepare FILE, then run the editor and read the file back. */
    method EditBlocking(host: Host, settings: Settings, args: string, fenced: bool, code: int, after: FileState)
      returns (launch: Launch)
      requires Valid()
      modifies this`path, this`fenced, this`files, this`input, this`inputPos, this`refreshes
      ensures Valid()
      ensures path == TempPath(CacheDir(host.env, host.expandUser, host.pathExists), args) && this.fenced == fenced
      ensures launch == Ran(host.split(ResolveEditor(settings.editor, host.env)) + [path])
      ensures refreshes == old(refreshes) + (if code != 0 then 2 else 1)
      ensures code == 0 || removeFails ==> files == AfterEditor(old(files)[path := old(input)], path, after)
      ensures code != 0 && !removeFails ==> files == AfterEditor(old(files)[path := old(input)], path, after) - {path}
      ensures Readable() ==> files[path] == after.contents && input == Recover(ReadText(after.contents), fenced) && inputPos == |input|
      ensures !Readable() ==> input == old(input) && inputPos == old(inputPos)
      ensures code == 0 && after.Present? ==> path in files
      ensures code != 0 && !removeFails ==> input == old(input) && inputPos == old(inputPos) && path !in files
    {
      var editor := ResolveEditor(settings.editor, host.env);
      Prepare(CacheDir(host.env, host.expandUser, host.pathExists), args, fenced);
      var argv := RunBlocking(editor, host.split, code, after);
      launch := Ran(argv);
    }

    /** The fenced variant of the compose command: the compose command with FENCED set. */
    method EditFenced(host: Host, settings: Settings, args: string, code: int, after: FileState)
      returns (rc: ReturnCode, launch: Launch)
      requires Valid()
      requires settings.runExternally ==>
        FormattableTemplate(ResolveEditor(settings.editor, host.env)) &&
        FormattableTemplate(ResolveTerminal(settings.terminal, host.env))
      modifies this`path, this`fenced, this`files, this`input, this`inputPos, this`refreshes, this`hooked
      ensures Valid()
      ensures rc == RcOk
      ensures path == TempPath(CacheDir(host.env, host.expandUser, host.pathExists), args)
      ensures fenced
      ensures settings.runExternally ==>
        && launch == Hooked(TerminalCommand(ResolveTerminal(settings.terminal, host.env), EditorCommand(ResolveEditor(settings.editor, host.env), path)))
        && hooked == old(hooked) + [launch.command]
        && files == old(files)[path := old(input)]
        && input == old(input) && inputPos == old(inputPos) && refreshes == old(refreshes)
      ensures !settings.runExternally ==>
        && launch == Ran(host.split(ResolveEditor(settings.editor, host.env)) + [path])
        && hooked == old(hooked)
        && refreshes == old(refreshes) + (if code != 0 then 2 else 1)
      ensures !settings.runExternally && (code == 0 || removeFails) ==>
        files == AfterEditor(old(files)[path := old(input)], path, after)
      ensures !settings.runExternally && code != 0 && !removeFails ==>
        files == AfterEditor(old(files)[path := old(input)], path, after) - {path}
      ensures !settings.runExternally && Readable() ==>
        files[path] == after.contents && input == Fence(StripTrailingNewline(ReadText(after.contents))) && inputPos == |input|
      ensures !settings.runExternally && !Readable() ==> input == old(input) && inputPos == old(inputPos)
      ensures !settings.runExternally && code == 0 && after.Present? ==> path in files
      ensures !settings.runExternally && code != 0 && !removeFails ==>
        input == old(input) && inputPos == old(inputPos) && path !in files
    {
      rc, launch := Edit(host, settings, args, true, code, after);
    }
  }

  /**
   * A blocking compose with an editor that exits 0 without touching the
   * file gives back the input line minus one trailing newline, and leaves
   * the temporary file behind.
   */
  method UntouchedBlockingCompose(host: Host, settings: Settings, args: string, input: string)
    returns (s: Session)
    requires !settings.runExternally && '\r' !in input
    ensures s.input == StripTrailingNewline(input) && s.inputPos == |s.input|
    ensures s.path in s.files && s.files[s.path] == input
  {
    s := new Session(input, 0, map[], false, false);
    var _, _ := s.Edit(host, settings, args, false, 0, Present(input));
    WriteThenRecover(input);
  }
}
