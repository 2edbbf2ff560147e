# edit-weechat compose script, modelled in Dafny

`edit.py` is a WeeChat script. Its `/edit [extension]` and `/fenced [extension]`
commands let the user write a message in an external editor. The script writes
the current input line to `message.<ext>` in a cache directory and runs the
editor on that file. It runs the editor either blocking the client or inside a
terminal emulator watched by the host. When the editor exits, the script reads
the file back, drops one trailing newline, optionally wraps the text in a
triple-backtick fence, and puts it in the input line with the cursor at its
end.

The project has one module per concern:

- `Recovery` (recovery.dfy): the text-mode read of the file, the trailing
  newline rule and the fence.
- `Commands` (commands.dfy): the `{}` placeholder templates for the editor and
  terminal settings.
- `Options` (options.dfy): the layered settings (configuration, then
  environment, then a built-in default), `os.path.join`, the cache directory
  and the temporary path.
- `Messages` (messages.dfy): the error line `"<stripped stderr>: <code>"`,
  with `str.strip()` and `str(int)` written out.
- `Compose` (compose.dfy): the class `Session`, which holds the script's
  state. Its methods `Cleanup`, `ReadFile`, `EditorProcessCb`,
  `HookEditorProcess`, `RunBlocking` and `Edit` update that state step by step.
- `Wrappers` (wrappers.dfy): an `Option` type.

`Session` holds the following state:

- the globals `FILE` (`path`) and `FENCED` (`fenced`);
- the files on disk, as a map from path to contents;
- the buffer's `input` and `input_pos`;
- a count of `/window refresh` commands;
- the lines printed to the core buffer;
- the commands handed to `hook_process`.

Two flags stand for the filesystem errors that the script catches. `removeFails`
means `os.remove` raises on an existing file. `readFails` means opening or
reading the file raises.

Two behaviours of the code are easy to miss:

- After a blocking run that exits 0, the temporary file is never removed
  (`run_blocking` calls `cleanup` only on a nonzero exit). `RunBlocking`
  ensures that the file is still there.
- After a blocking run that exits nonzero, the file is removed and then read.
  So the input line is left alone only when the removal succeeded. If the
  removal failed, the edited text is still applied. `RunBlocking` states both
  cases.

## Model

| member | source | states |
|---|---|---|
| `Recovery.ReadText` | edit.py:86-87 | A text-mode read never returns a `"\r"`. It is never longer than the raw contents. It returns them unchanged when they hold no `"\r"`. |
| `Recovery.ReadTextSteps` | edit.py:86-87 | Each step of the read: `"\r\n"` and a lone `"\r"` (one not followed by `"\n"`) become `"\n"`, and any other character is kept. |
| `Recovery.ReadTextAppend` | edit.py:86-87 | Text cut anywhere except right after a `"\r"` reads as its two pieces read separately. With `ReadTextSteps` this determines the read. |
| `Recovery.ReadTextCrLf` | edit.py:86-87 | A line ending in `"\r\n"` reads back ending in `"\n"`. |
| `Recovery.StripTrailingNewline` | edit.py:89-90 | If the text ends in `"\n"`, the result plus one `"\n"` is the text. Otherwise the text is unchanged, `""` included. |
| `Recovery.Fence` | edit.py:91-92 | The fenced text is 8 characters longer. It starts with ```` ```\n ```` and ends with ```` \n``` ````, and the original text lies between the two markers. |
| `Recovery.FenceRoundTrip` | edit.py:91-92 | Taking the markers off a fenced text gives back exactly that text. |
| `Recovery.Recover` | edit.py:89-92 | Unfenced, the result is the text with its one trailing `"\n"` stripped (if it has one), so it is the text or the text minus one `"\n"`. Fenced, removing the fence gives that stripped text. |
| `Recovery.RecoverPlainUnchanged` | edit.py:89-90 | Unfenced text without a trailing newline is placed unchanged. |
| `Recovery.RecoverDropsOneNewline` | edit.py:89-92 | `"a\n\n"` becomes `"a\n"` and `""` stays `""`. `"hello"` fenced becomes ```` "```\nhello\n```" ````. |
| `Recovery.WriteThenRecover` | edit.py:86-92 | An input line without `"\r"` comes back from the file with at most one trailing newline dropped. With the newline an editor adds on saving, it comes back exactly. |
| `Commands.FindPlaceholder` | edit.py:104 | The result is None exactly when the string has no `{}` from that index on. Otherwise it is the index of the first `{}`. |
| `Commands.HasPlaceholder` | edit.py:104 | `"{}" in s` holds exactly when some index of `s` starts a `{}` pair. |
| `Commands.Format` | edit.py:105 | On a single-placeholder template the result is 2 shorter plus the argument's length. It keeps the template before the `{}`, holds the argument where `{}` was, and keeps the template after it. |
| `Commands.FormatSplices` | edit.py:105 | A template made of a brace-free prefix, `{}` and a brace-free suffix gets the argument, verbatim, exactly where `{}` was. The rest of the template is kept. |
| `Commands.SinglePlaceholderSplits` | edit.py:104-105 | Every template with a single placeholder and no other brace has that prefix/`{}`/suffix shape. |
| `Commands.EditorCommand` | edit.py:104-107 | An editor setting without `{}` gives the setting, one space and the file name. |
| `Commands.EditorCommandWithPlaceholder` | edit.py:104-105 | An editor setting `prefix{}suffix` gives `prefix + FILE + suffix`. |
| `Commands.TerminalCommand` | edit.py:108-111 | A terminal setting without `{}` gives the setting, then ` -e "`, the editor command and a closing `"`. |
| `Commands.TerminalCommandWithPlaceholder` | edit.py:108-109 | A terminal setting `prefix{}suffix` gives `prefix + editor_cmd + suffix`. |
| `Commands.ShellCommand` | edit.py:104-111 | With no placeholder in either setting, the command is `terminal -e "editor FILE"`. |
| `Commands.BraceFreeTemplate` | edit.py:104-111 | A setting with no brace contains no `{}`, so it takes the default shape in both `if "{}" in ...` tests. |
| `Commands.DefaultShellCommand` | edit.py:103-111 | With the fallbacks `xterm` and `vim -f`, the command is `xterm -e "vim -f FILE"`. |
| `Options.EnvGet` | edit.py:127 | `os.environ.get(name, default)`: the variable's value when it is set, even to `""`, and the default otherwise. |
| `Options.ResolveEditor` | edit.py:126-128 | A non-empty configured editor wins. Otherwise the editor is `$EDITOR` or `vim -f`, and it is never any other value. |
| `Options.ResolveEditorEmpty` | edit.py:126-128 | The editor is empty exactly when it is unconfigured and `$EDITOR` is set to `""`. |
| `Options.ResolveTerminal` | edit.py:130-132 | The terminal is never empty. A non-empty configured terminal wins. Otherwise it is `$TERMCMD` or `xterm`. |
| `Options.ResolutionOrder` | edit.py:126-132 | Each layer is used exactly when the layers above it give nothing. A set but empty `$EDITOR` is used. A set but empty `$TERMCMD` falls through to `xterm`. |
| `Options.Join` | edit.py:141-143 | An absolute name replaces the directory. A relative name is appended with one `/`, or with none when the directory is empty or already ends in `/`. |
| `Options.JoinSeparator` | edit.py:141-143 | Joining a relative name adds a `/` exactly when the directory is non-empty and does not end in one. |
| `Options.XdgCacheDir` | edit.py:49-50 | The cache home is the expanded `$XDG_CACHE_HOME` when it is set and the expanded `~/.cache/` otherwise. |
| `Options.CacheDir` | edit.py:49-57 | The cache directory is `<expanded $XDG_CACHE_HOME or ~/.cache/>/weechat` if that path exists. Otherwise it is the expanded `$WEECHAT_HOME` or `~/.weechat/`. |
| `Options.Extension` | edit.py:142 | The extension is never empty. It is `md` when the argument is empty and the argument verbatim otherwise. |
| `Options.TempName` | edit.py:142 | The file name is `message.` followed by the extension. |
| `Options.TempPath` | edit.py:141-143 | The temporary path starts with the cache directory and ends with `message.<ext>`. Exactly `""` or `"/"` lies between the two. |
| `Options.TempPathExamples` | edit.py:141-143 | Without an argument the path is `<dir>/message.md`. With an argument it is `message.<argument>`. |
| `Messages.IsSpace` | edit.py:65 | The whitespace that `str.strip()` removes: space, tab, `"\n"` and `"\r"` are whitespace, and no ASCII letter or digit is. The full set is Python's `str.isspace`. |
| `Messages.TrimStart` | edit.py:65 | The result is a suffix of the input, only whitespace was removed, and it does not start with whitespace. |
| `Messages.TrimEnd` | edit.py:65 | The result is a prefix of the input, only whitespace was removed, and it does not end with whitespace. |
| `Messages.Strip` | edit.py:65 | The stripped error text neither starts nor ends with whitespace. |
| `Messages.StripIsInnerSlice` | edit.py:65 | The stripped text is a contiguous slice of the input, and everything outside the slice is whitespace. |
| `Messages.StripIdempotent` | edit.py:65 | Stripping twice is the same as stripping once. |
| `Messages.Digits` | edit.py:65 | The result is a non-empty string of decimal digits with no leading zero unless the number is 0. |
| `Messages.DigitsRoundTrip` | edit.py:65 | Reading the digits back as a number gives the number they were written from. |
| `Messages.Decimal` | edit.py:65 | The text of the exit code starts with `-` exactly when the code is negative. |
| `Messages.DecimalRoundTrip` | edit.py:65 | Reading the text of any exit code back, with an optional `-` and then its digits, gives the exit code. |
| `Messages.ErrorLine` | edit.py:65 | The printed line is the stripped error text, then `": "`, then exactly `Decimal(code)`, the exit code in decimal. |
| `Messages.StripExample` | edit.py:65 | `" oops\n".strip()` is `"oops"`: the whitespace at both ends goes and the inside stays. |
| `Messages.DecimalExample` | edit.py:65 | The exit codes 1 and -2 print as `1` and `-2`. |
| `Messages.ErrorLineExample` | edit.py:65 | `" oops\n"` with code 1 prints `oops: 1`, and `""` with code -2 prints `: -2`. |
| `Compose.AfterEditor` | edit.py:116-117 | The editor changes only the temporary path: it leaves the file there with the given contents, or removes it. |
| `Compose.Session.constructor` | edit.py:45-46 | At load, `FILE` is `""` and `FENCED` is false. Nothing has been refreshed, printed or hooked. |
| `Compose.Session.Cleanup` | edit.py:75-81 | Removes `FILE` unless removal raises, and ignores a file that is already missing. Requests one refresh and leaves the input line as it was. |
| `Compose.Session.ReadFile` | edit.py:84-100 | If the file is readable, the input becomes the recovered text and the cursor goes to its length. Otherwise the input and cursor do not change. One refresh is requested either way. |
| `Compose.Session.EditorProcessCb` | edit.py:60-72 | The editor has left the file in a given state. On a nonzero code: removes the file, prints the error line, returns the error code and leaves the input and cursor unchanged. On code 0: applies the file if it is there and readable, removes it and returns OK. |
| `Compose.Session.ReportFailure` | edit.py:63-66 | The failure branch removes the file unless removal raises, requests one refresh and prints exactly the error line. |
| `Compose.Session.ApplyAndRemove` | edit.py:68-70 | The success branch reads the file into the input line if it was readable, leaving the input alone otherwise. It then removes the file unless removal raises. Two refreshes are requested. |
| `Compose.Session.HookEditorProcess` | edit.py:103-112 | Hands the host the terminal command that wraps the editor command for `FILE`. |
| `Compose.Session.RunBlocking` | edit.py:115-122 | The argv is the split editor setting followed by `FILE`. On exit 0 the file is applied and kept on disk. On a nonzero exit the file is removed before the read, so the input changes only if that removal failed. Refreshes: 1 on exit 0, 2 otherwise. |
| `Compose.Session.Prepare` | edit.py:139-148 | Sets `FILE` to the temporary path and sets `FENCED`. Writes the current input line to `FILE`. |
| `Compose.Session.Edit` | edit.py:125-155 | Resolves the settings, writes the input to `message.<ext>` in the cache directory, then starts the editor and returns OK. External mode: hooks the terminal command, and the input line is unchanged. Blocking mode: gives the argv, the files and the refresh count for every exit code. If the file is still readable at the end, the input is the recovered text; otherwise the input is unchanged. |
| `Compose.Session.EditExternally` | edit.py:126-151 | External mode: `FILE` is the temporary path and holds the old input line. The host is given exactly the terminal command for the resolved settings, and the input line is not touched. |
| `Compose.Session.EditBlocking` | edit.py:126-153 | Blocking mode: the argv is the split resolved editor followed by `FILE`. The files, the refresh count and the input line are stated for every exit code and every state the editor leaves the file in. |
| `Compose.Session.EditFenced` | edit.py:158-159 | `/fenced` has every outcome of `/edit` with `FENCED` set: the same launch, files, hooks and refreshes. In blocking mode a readable file gives the fenced, newline-stripped text. |
| `Compose.UntouchedBlockingCompose` | edit.py:115-122 | A blocking compose with an editor that exits 0 without saving gives the input back minus one trailing newline. The temporary file is left on disk. |

## Left out

- Process spawning (`subprocess.Popen(...).wait()`, `weechat.hook_process`) is left out. A blocking run is an exit code plus the state the editor leaves the file in. An external run is the command handed to the host plus a later callback with an exit code, standard error and the state the editor left the file in. The callback's `command` and `out` arguments are not used by the script and are not modelled.
- Compose.Session.RunBlocking: every blocking run is modelled as ending with an exit code. `shlex.split` raising `ValueError` on an unbalanced quote, and `subprocess.Popen` raising `OSError` when the program cannot be started, are not modelled. One reachable case of the second: with `EDITOR` set to `""`, the argv is `[FILE]` alone. In the script both exceptions propagate out of the command: nothing is read, no refresh is requested, `WEECHAT_RC_OK` is not returned and the file stays on disk.
- Compose.Session.Edit: promises `RcOk` for every blocking run, which does not hold on the exception paths above.
- `shlex.split`, `os.path.expanduser`, `os.path.exists` and the environment are inputs. The first three are functions in `Compose.Host`; the environment is a map.
- `weechat.config_string_to_boolean` is host code: `run_externally` is given as a boolean.
- `main()` is not part of this model: registration, seeding the default settings, the version-gated option descriptions and command hooks are host API wiring.
- The buffer argument is implicit: a `Session` stands for one buffer.
- A second compose started before the first one completes overwrites `FILE` and `FENCED`. The model is sequential and does not represent that race.
- A host callback made while the process is still running (WeeChat's "running" code, -1) is not modelled separately. It is a nonzero code, and the model treats every nonzero code the same way the script does.
- `input_pos` is stored as a number; the script passes the host its decimal string. Character counts are those of Unicode scalar values, which matches Python's `len` on well-formed text.
- Decoding errors on reading the file are not modelled. File contents are text; a `UnicodeDecodeError` is not an `OSError` and is not caught by the script.
- Python's `str.isspace` is written out for the characters `str.strip()` removes. The model does not consult the Unicode database.
- Commands.EditorCommand: requires that an editor setting containing `{}` has no other brace. Full `str.format` (`{0}`, `{{`, several fields) is not modelled; with those, Python raises or substitutes differently.
- Commands.TerminalCommand: requires that a terminal setting containing `{}` has no other brace, for the same reason.
- Compose.Session.HookEditorProcess: carries the same restriction on both settings.
- Compose.Session.Edit: carries the same restriction when run externally. It also assumes that writing the temporary file succeeds; in the script an `OSError` from that write propagates out of the command.
- Compose.Session.EditFenced: carries the same restrictions as `Edit`.
- Compose.Session.EditExternally: carries the same template restriction as `Edit` and assumes the same successful write.
- Compose.Session.EditBlocking: assumes the same successful write, and does not model the exception paths listed for `RunBlocking`.
