/** Shell quoting of QEMU arguments (`becky-fx-qemu/src/utils.rs`) against a reader of
    quoted words.

    The reader follows the POSIX.1-2017 Shell Command Language: backslash (section 2.2.1),
    single quotes (section 2.2.2) and token recognition (section 2.3).  A character that the
    shell would give any other meaning makes it answer None. */
module ShellQuoting {
  import opened Wrappers

  predicate IsSafe(c: char) {
    'a' <= c <= 'z' || 'A' <= c <= 'Z' || '0' <= c <= '9'
    || c in {'_', '-', '.', '/', ':', ',', '=', '+'}
  }

  /** `arg.replace('\'', r"'\''")` */
  function ReplaceQuotes(s: string): string {
    if s == "" then ""
    else (if s[0] == '\'' then "'\\''" else [s[0]]) + ReplaceQuotes(s[1..])
  }

  function EscapeArg(arg: string): string {
    if arg != "" && forall i | 0 <= i < |arg| :: IsSafe(arg[i]) then arg
    else "'" + ReplaceQuotes(arg) + "'"
  }

  function EscapeAll(args: seq<string>): string
    requires args != []
  {
    if |args| == 1 then EscapeArg(args[0]) else EscapeArg(args[0]) + " " + EscapeAll(args[1..])
  }

  /** The command line handed to the QEMU command parser. */
  function CommandLine(args: seq<string>): Result<string, string> {
    if args == [] then Err("no QEMU command arguments supplied") else Ok(EscapeAll(args))
  }

  predicate IsBlank(c: char) { c == ' ' || c == '\t' }

  /** Characters that end a word, start an expansion, a pattern or a comment, or open a double
      quote. */
  predicate IsSpecial(c: char) {
    c in {'|', '&', ';', '<', '>', '(', ')', '$', '`', '"', '\n', '*', '?', '[', '#', '~'}
  }

  datatype Mode = Plain | InQuotes

  function TextOf(word: Option<string>): string {
    if word.Some? then word.value else ""
  }

  /** The words of `s`, when `word` is what the current word holds so far (None between
      words). */
  function Words(s: string, mode: Mode, word: Option<string>): Option<seq<string>> {
    if s == "" then
      if mode == InQuotes then None else Some(if word.Some? then [word.value] else [])
    else if mode == InQuotes then
      if s[0] == '\'' then Words(s[1..], Plain, word) else Words(s[1..], InQuotes, Some(TextOf(word) + [s[0]]))
    else if s[0] == '\'' then
      Words(s[1..], InQuotes, Some(TextOf(word)))
    else if s[0] == '\\' then
      if |s| == 1 then None
      else if s[1] == '\n' then Words(s[2..], Plain, word)
      else Words(s[2..], Plain, Some(TextOf(word) + [s[1]]))
    else if IsBlank(s[0]) then
      match Words(s[1..], Plain, None)
      case None => None
      case Some(rest) => Some((if word.Some? then [word.value] else []) + rest)
    else if IsSpecial(s[0]) then None
    else Words(s[1..], Plain, Some(TextOf(word) + [s[0]]))
  }

  function Read(s: string): Option<seq<string>> {
    Words(s, Plain, None)
  }

  lemma {:induction false} SafeTextIsLiteral(arg: string, rest: string, word: Option<string>)
    requires arg != "" && forall i | 0 <= i < |arg| :: IsSafe(arg[i])
    ensures Words(arg + rest, Plain, word) == Words(rest, Plain, Some(TextOf(word) + arg))
  {
    var s := arg + rest;
    assert s[1..] == arg[1..] + rest;
    var grown := Some(TextOf(word) + [arg[0]]);
    assert Words(s, Plain, word) == Words(s[1..], Plain, grown);
    if |arg| == 1 {
      assert arg[1..] + rest == rest && [arg[0]] == arg;
    } else {
      SafeTextIsLiteral(arg[1..], rest, grown);
      assert TextOf(grown) + arg[1..] == TextOf(word) + arg;
    }
  }

  lemma EscapedQuote(tail: string, word: string)
    ensures Words("'\\''" + tail, InQuotes, Some(word)) == Words(tail, InQuotes, Some(word + ['\'']))
  {
    var s := "'\\''" + tail;
    assert s[1..] == "\\''" + tail && s[1..][2..] == "'" + tail && ("'" + tail)[1..] == tail;
    assert Words(s, InQuotes, Some(word)) == Words(s[1..], Plain, Some(word));
    assert Words(s[1..], Plain, Some(word)) == Words("'" + tail, Plain, Some(word + ['\'']));
  }

  lemma OpenQuote(rest: string)
    ensures Words("'" + rest, Plain, None) == Words(rest, InQuotes, Some(""))
  {
    assert ("'" + rest)[1..] == rest;
  }

  lemma CloseQuote(rest: string, word: string)
    ensures Words("'" + rest, InQuotes, Some(word)) == Words(rest, Plain, Some(word))
  {
    assert ("'" + rest)[1..] == rest;
  }

  lemma QuotedChar(c: char, tail: string, word: string)
    requires c != '\''
    ensures Words([c] + tail, InQuotes, Some(word)) == Words(tail, InQuotes, Some(word + [c]))
  {
    assert ([c] + tail)[1..] == tail;
  }

  lemma FirstCharSplits(arg: string, rest: string, word: string)
    requires arg != ""
    ensures ReplaceQuotes(arg) + "'" + rest
            == (if arg[0] == '\'' then "'\\''" else [arg[0]]) + (ReplaceQuotes(arg[1..]) + "'" + rest)
    ensures word + [arg[0]] + arg[1..] == word + arg
  {
    var head := if arg[0] == '\'' then "'\\''" else [arg[0]];
    Associate(head, ReplaceQuotes(arg[1..]), "'", rest);
    FirstCharFirst(arg, word);
  }

  lemma Associate(a: string, b: string, c: string, d: string)
    ensures ((a + b) + c) + d == a + ((b + c) + d)
  {
  }

  lemma FirstCharFirst(arg: string, word: string)
    requires arg != ""
    ensures word + [arg[0]] + arg[1..] == word + arg
  {
    assert [arg[0]] + arg[1..] == arg;
  }

  lemma {:induction false} QuotedTextIsLiteral(arg: string, rest: string, word: string)
    ensures Words(ReplaceQuotes(arg) + "'" + rest, InQuotes, Some(word)) == Words(rest, Plain, Some(word + arg))
    decreases |arg|
  {
    if arg == "" {
      assert ReplaceQuotes(arg) + "'" + rest == "'" + rest && word + arg == word;
      CloseQuote(rest, word);
    } else {
      var tail := ReplaceQuotes(arg[1..]) + "'" + rest;
      FirstCharSplits(arg, rest, word);
      QuotedTextIsLiteral(arg[1..], rest, word + [arg[0]]);
      if arg[0] == '\'' {
        EscapedQuote(tail, word);
      } else {
        QuotedChar(arg[0], tail, word);
      }
    }
  }

  lemma QuotedArgIsOneWord(arg: string, rest: string)
    ensures Words("'" + ReplaceQuotes(arg) + "'" + rest, Plain, None) == Words(rest, Plain, Some(arg))
  {
    var quoted := ReplaceQuotes(arg) + "'" + rest;
    assert "'" + ReplaceQuotes(arg) + "'" + rest == "'" + quoted;
    OpenQuote(quoted);
    QuotedTextIsLiteral(arg, rest, "");
    assert "" + arg == arg;
  }

  lemma EscapedArgIsOneWord(arg: string, rest: string)
    ensures Words(EscapeArg(arg) + rest, Plain, None) == Words(rest, Plain, Some(arg))
  {
    if arg != "" && forall i | 0 <= i < |arg| :: IsSafe(arg[i]) {
      SafeTextIsLiteral(arg, rest, None);
      assert "" + arg == arg;
    } else {
      QuotedArgIsOneWord(arg, rest);
    }
  }

  lemma OneWord(arg: string)
    ensures Read(EscapeArg(arg)) == Some([arg])
  {
    EscapedArgIsOneWord(arg, "");
    assert EscapeArg(arg) + "" == EscapeArg(arg);
  }

  lemma BlankEndsWord(word: string, tail: string, words: seq<string>)
    requires Read(tail) == Some(words)
    ensures Words(" " + tail, Plain, Some(word)) == Some([word] + words)
  {
    assert (" " + tail)[1..] == tail;
  }

  lemma FirstWord(arg: string, tail: string, words: seq<string>)
    requires Read(tail) == Some(words)
    ensures Read(EscapeArg(arg) + " " + tail) == Some([arg] + words)
  {
    EscapedArgIsOneWord(arg, " " + tail);
    BlankEndsWord(arg, tail, words);
    assert EscapeArg(arg) + " " + tail == EscapeArg(arg) + (" " + tail);
  }

  /** Only an empty list is an error, and an argument is quoted if and only if it is empty or holds a
      character outside the safe ones. */
  lemma QuotesExactly(args: seq<string>, arg: string)
    ensures CommandLine(args).Ok? <==> args != []
    ensures EscapeArg(arg) == arg
            <==> arg != "" && forall i | 0 <= i < |arg| ::
                   var c := arg[i];
                   'a' <= c <= 'z' || 'A' <= c <= 'Z' || '0' <= c <= '9' || c in "_-./:,=+"
  {
    assert "_-./:,=+" == ['_', '-', '.', '/', ':', ',', '=', '+'];
    if arg == "" || exists i :: 0 <= i < |arg| && !IsSafe(arg[i]) {
      EscapedIsLonger(arg);
      assert |EscapeArg(arg)| > |arg|;
    }
  }

  lemma {:induction false} EscapedIsLonger(arg: string)
    ensures |ReplaceQuotes(arg)| >= |arg|
  {
    if arg != "" {
      EscapedIsLonger(arg[1..]);
    }
  }

  /** Quoting every argument and joining with spaces loses nothing: the shell's reading gives
      back the list, whatever characters the arguments hold. */
  lemma {:induction false} QuotingRoundTrip(args: seq<string>)
    requires args != []
    ensures CommandLine(args).Ok? && Read(CommandLine(args).value) == Some(args)
  {
    if |args| == 1 {
      OneWord(args[0]);
      assert args == [args[0]];
    } else {
      QuotingRoundTrip(args[1..]);
      FirstWord(args[0], EscapeAll(args[1..]), args[1..]);
      assert args == [args[0]] + args[1..];
    }
  }
}
