/**
 * Recovering the composed message from the temporary file: the text-mode
 * read, the removal of one trailing newline and the optional code fence
 * (read_file in edit.py).
 */
module Recovery {
  import opened Wrappers

  /** The opening and the closing markers of a fenced code block. */
  const FenceOpen: string := "```\n"
  const FenceClose: string := "\n```"

  /**
   * Reading a file in text mode with universal newlines: every "\r\n" and
   * every lone "\r" comes back as a single "\n"; nothing else changes.
   */
  function ReadText(raw: string): (text: string)
    ensures '\r' !in text
    ensures |text| <= |raw|
    ensures '\r' !in raw ==> text == raw
  {
    if raw == [] then []
    else if raw[0] == '\r' then
      if |raw| > 1 && raw[1] == '\n' then "\n" + ReadText(raw[2..]) else "\n" + ReadText(raw[1..])
    else [raw[0]] + ReadText(raw[1..])
  }

  predicate EndsWithNewline(text: string) {
    |text| > 0 && text[|text| - 1] == '\n'
  }

  /** Drops one trailing "\n" if there is one, and only one. */
  function StripTrailingNewline(text: string): (r: string)
    ensures EndsWithNewline(text) ==> r + "\n" == text
    ensures !EndsWithNewline(text) ==> r == text
  {
    if EndsWithNewline(text) then text[..|text| - 1] else text
  }

  /** Wraps text in a triple-backtick block, each marker on its own line. */
  function Fence(text: string): (r: string)
    ensures |r| == |text| + 8
    ensures r[..4] == FenceOpen && r[|r| - 4..] == FenceClose
    ensures r[4..|r| - 4] == text
  {
    FenceOpen + text + FenceClose
  }

  /** The inverse of Fence: the text between the markers, if both are there. */
  function Unfence(block: string): (r: Option<string>)
    ensures r.Some? ==> |r.value| + 8 == |block|
  {
    if |block| >= 8 && block[..4] == FenceOpen && block[|block| - 4..] == FenceClose
    then Some(block[4..|block| - 4])
    else None
  }

  /**
   * The text placed in the input line once the file has been read:
   * at most one trailing newline removed, then fenced when asked for.
   */
  function Recover(text: string, fenced: bool): (r: string)
    ensures !fenced ==> r == StripTrailingNewline(text)
    ensures !fenced ==> r == text || r + "\n" == text
    ensures fenced ==> Unfence(r) == Some(StripTrailingNewline(text))
  {
    var stripped := StripTrailingNewline(text);
    if fenced then Fence(stripped) else stripped
  }

  /** Unfence undoes Fence for every text, including one that holds fences itself. */
  lemma FenceRoundTrip(text: string)
    ensures Unfence(Fence(text)) == Some(text)
  {
  }

  /** Only text ending in a newline is shortened when no fence is added. */
  lemma RecoverPlainUnchanged(text: string)
    requires !EndsWithNewline(text)
    ensures Recover(text, false) == text
  {
  }

  /** Exactly one newline goes, however many there are. */
  lemma RecoverDropsOneNewline()
    ensures Recover("a\n\n", false) == "a\n"
    ensures Recover("", false) == ""
    ensures Recover("hello", true) == "```\nhello\n```"
  {
  }

  /**
   * The input written to the file comes back as written, or with the one
   * newline an editor adds on saving removed, provided it holds no "\r".
   */
  lemma WriteThenRecover(input: string)
    requires '\r' !in input
    ensures Recover(ReadText(input), false) == StripTrailingNewline(input)
    ensures Recover(ReadText(input + "\n"), false) == input
  {
  }

  /** A "\r\n" line ending and a "\n" line ending read back the same. */
  lemma {:induction false} ReadTextCrLf(line: string)
    requires '\r' !in line
    ensures ReadText(line + "\r\n") == line + "\n"
    decreases |line|
  {
    if line == [] {
      assert line + "\r\n" == "\r\n";
      assert ReadText("\r\n") == "\n" + ReadText([]);
    } else {
      assert (line + "\r\n")[1..] == line[1..] + "\r\n";
      assert line[0] in line;
      ReadTextCrLf(line[1..]);
    }
  }

  /** The single steps of the text-mode read: "\r\n" and a lone "\r" become "\n", any other character stays. */
  lemma ReadTextSteps(c: char, rest: string)
    ensures ReadText("\r") == "\n" && ReadText("\r\n") == "\n"
    ensures ReadText("\r\n" + rest) == "\n" + ReadText(rest)
    ensures rest == [] || rest[0] != '\n' ==> ReadText("\r" + rest) == "\n" + ReadText(rest)
    ensures c != '\r' ==> ReadText([c] + rest) == [c] + ReadText(rest)
  {
    assert ("\r\n" + rest)[2..] == rest;
    assert ("\r" + rest)[1..] == rest;
    assert ([c] + rest)[1..] == rest;
  }

  /**
   * The read works piece by piece: text cut anywhere except right after a
   * "\r" reads as the two pieces read separately.
   */
  lemma {:induction false} ReadTextAppend(a: string, b: string)
    requires a == [] || a[|a| - 1] != '\r'
    ensures ReadText(a + b) == ReadText(a) + ReadText(b)
    decreases |a|
  {
    if a == [] {
      assert a + b == b;
    } else if a[0] == '\r' {
      assert |a| > 1;
      if a[1] == '\n' {
        assert (a + b)[2..] == a[2..] + b;
        ReadTextAppend(a[2..], b);
      } else {
        assert (a + b)[1..] == a[1..] + b;
        ReadTextAppend(a[1..], b);
      }
    } else {
      assert (a + b)[1..] == a[1..] + b;
      ReadTextAppend(a[1..], b);
    }
  }
}
