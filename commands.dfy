/**
 * Building the shell command that runs the editor, optionally inside a
 * terminal emulator (hook_editor_process in edit.py). Both settings are
 * templates: a "{}" placeholder receives the file name (editor) or the
 * editor command (terminal); without one a default shape is used.
 */
module Commands {
  import opened Wrappers

  predicate IsBrace(c: char) {
    c == '{' || c == '}'
  }

  /** A "{}" pair starts at index i of s. */
  predicate PlaceholderAt(s: string, i: int) {
    0 <= i && i + 1 < |s| && s[i] == '{' && s[i + 1] == '}'
  }

  predicate NoBraces(s: string) {
    forall j :: 0 <= j < |s| ==> !IsBrace(s[j])
  }

  /** The first "{}" at or after index from, or None when there is none. */
  function FindPlaceholder(s: string, from: nat): (r: Option<nat>)
    ensures r.None? <==> forall i :: from <= i ==> !PlaceholderAt(s, i)
    ensures r.Some? ==> from <= r.value && PlaceholderAt(s, r.value)
    ensures r.Some? ==> forall i :: from <= i < r.value ==> !PlaceholderAt(s, i)
    decreases |s| - from
  {
    if from + 1 >= |s| then None
    else if PlaceholderAt(s, from) then Some(from)
    else FindPlaceholder(s, from + 1)
  }

  /** Python's `"{}" in s`. */
  predicate HasPlaceholder(s: string)
    ensures HasPlaceholder(s) <==> exists i :: PlaceholderAt(s, i)
  {
    FindPlaceholder(s, 0).Some?
  }

  /** The template holds one "{}" and no other brace. */
  predicate SinglePlaceholder(t: string) {
    match FindPlaceholder(t, 0)
    case None => false
    case Some(i) => forall j :: 0 <= j < |t| && j != i && j != i + 1 ==> !IsBrace(t[j])
  }

  /**
   * A template that `str.format` with one positional argument accepts in
   * the way this model describes: one with a placeholder has no other brace.
   */
  predicate FormattableTemplate(t: string) {
    HasPlaceholder(t) ==> SinglePlaceholder(t)
  }

  /** Python's `t.format(arg)` on a single-placeholder template. */
  function Format(t: string, arg: string): (r: string)
    requires SinglePlaceholder(t)
    ensures |r| == |t| - 2 + |arg|
    ensures var i := FindPlaceholder(t, 0).value;
      r[..i] == t[..i] && r[i..i + |arg|] == arg && r[i + |arg|..] == t[i + 2..]
  {
    var i := FindPlaceholder(t, 0).value;
    t[..i] + arg + t[i + 2..]
  }

  /** The editor command for a file. */
  function EditorCommand(editor: string, file: string): (cmd: string)
    requires FormattableTemplate(editor)
    ensures !HasPlaceholder(editor) ==> |cmd| == |editor| + 1 + |file| && cmd[..|editor|] == editor && cmd[|editor|..] == " " + file
  {
    if HasPlaceholder(editor) then Format(editor, file) else editor + " " + file
  }

  /** The command handed to the host: the editor command inside the terminal. */
  function TerminalCommand(terminal: string, editorCmd: string): (cmd: string)
    requires FormattableTemplate(terminal)
    ensures !HasPlaceholder(terminal) ==> |cmd| > |terminal| && cmd[..|terminal|] == terminal && cmd[|terminal|..] == " -e \"" + editorCmd + "\""
  {
    if HasPlaceholder(terminal) then Format(terminal, editorCmd) else terminal + " -e \"" + editorCmd + "\""
  }

  /** The full command for the external mode. */
  function ShellCommand(terminal: string, editor: string, file: string): (cmd: string)
    requires FormattableTemplate(editor) && FormattableTemplate(terminal)
    ensures !HasPlaceholder(editor) && !HasPlaceholder(terminal) ==>
      cmd == terminal + " -e \"" + editor + " " + file + "\""
  {
    TerminalCommand(terminal, EditorCommand(editor, file))
  }

  /** The first placeholder of `prefix + "{}" + suffix` is the one after prefix when prefix has no brace. */
  lemma FirstPlaceholderAfterPrefix(prefix: string, suffix: string)
    requires NoBraces(prefix)
    ensures FindPlaceholder(prefix + "{}" + suffix, 0) == Some(|prefix|)
  {
    var t := prefix + "{}" + suffix;
    assert PlaceholderAt(t, |prefix|);
    forall i | 0 <= i < |prefix| ensures !PlaceholderAt(t, i) {
      assert t[i] == prefix[i];
    }
  }

  /**
   * Substitution into a template with one placeholder and no other brace
   * puts the argument verbatim where "{}" was and keeps the rest.
   */
  lemma FormatSplices(prefix: string, suffix: string, arg: string)
    requires NoBraces(prefix) && NoBraces(suffix)
    ensures SinglePlaceholder(prefix + "{}" + suffix)
    ensures Format(prefix + "{}" + suffix, arg) == prefix + arg + suffix
  {
    var t := prefix + "{}" + suffix;
    FirstPlaceholderAfterPrefix(prefix, suffix);
    forall j | 0 <= j < |t| && j != |prefix| && j != |prefix| + 1 ensures !IsBrace(t[j]) {
      if j < |prefix| {
        assert t[j] == prefix[j];
      } else {
        assert t[j] == suffix[j - |prefix| - 2];
      }
    }
    assert t[..|prefix|] == prefix;
    assert t[|prefix| + 2..] == suffix;
  }

  /** Every single-placeholder template is a brace-free prefix, "{}" and a brace-free suffix. */
  lemma SinglePlaceholderSplits(t: string) returns (prefix: string, suffix: string)
    requires SinglePlaceholder(t)
    ensures NoBraces(prefix) && NoBraces(suffix)
    ensures t == prefix + "{}" + suffix
  {
    var i := FindPlaceholder(t, 0).value;
    prefix, suffix := t[..i], t[i + 2..];
    assert t == prefix + t[i..i + 2] + suffix;
    assert t[i..i + 2] == "{}";
    forall j | 0 <= j < |suffix| ensures !IsBrace(suffix[j]) {
      assert suffix[j] == t[i + 2 + j];
    }
  }

  /** An editor template "prefix{}suffix" yields prefix + file + suffix. */
  lemma EditorCommandWithPlaceholder(prefix: string, suffix: string, file: string)
    requires NoBraces(prefix) && NoBraces(suffix)
    ensures FormattableTemplate(prefix + "{}" + suffix)
    ensures EditorCommand(prefix + "{}" + suffix, file) == prefix + file + suffix
  {
    FormatSplices(prefix, suffix, file);
  }

  /** A terminal template "prefix{}suffix" embeds the editor command there. */
  lemma TerminalCommandWithPlaceholder(prefix: string, suffix: string, editorCmd: string)
    requires NoBraces(prefix) && NoBraces(suffix)
    ensures FormattableTemplate(prefix + "{}" + suffix)
    ensures TerminalCommand(prefix + "{}" + suffix, editorCmd) == prefix + editorCmd + suffix
  {
    FormatSplices(prefix, suffix, editorCmd);
  }

  /** A template without braces has no placeholder. */
  lemma BraceFreeTemplate(t: string)
    requires NoBraces(t)
    ensures !HasPlaceholder(t) && FormattableTemplate(t)
  {
    forall i | 0 <= i < |t| ensures !PlaceholderAt(t, i) {
      assert !IsBrace(t[i]);
    }
  }

  /** With the shipped fallbacks the command is `xterm -e "vim -f FILE"`. */
  lemma DefaultShellCommand(file: string)
    ensures FormattableTemplate("vim -f") && FormattableTemplate("xterm")
    ensures ShellCommand("xterm", "vim -f", file) == "xterm -e \"vim -f " + file + "\""
  {
    BraceFreeTemplate("vim -f");
    BraceFreeTemplate("xterm");
    assert ShellCommand("xterm", "vim -f", file) == "xterm" + " -e \"" + "vim -f" + " " + file + "\"";
  }
}
