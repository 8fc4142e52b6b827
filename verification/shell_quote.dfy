// translator/native_tool_adapter.go: shellQuote, read back by the word lexer of
// the Shell Command Language (POSIX.1-2017, sections 2.2.1 and 2.2.2).
module ShellQuoting {

  // ---------- the lexer ----------

  // Escape: after a backslash. Quote: inside single quotes. Failed: met a
  // character that means something else to the shell when it is not quoted.
  datatype Mode = Plain | Escape | Quote | Failed

  // `word` is the word being read; it may have begun and still be empty.
  datatype Lexer = Lexer(words: seq<string>, begun: bool, word: string, mode: Mode)

  const START := Lexer([], false, "", Plain)

  predicate IsSpecial(c: char) {
    c in {'\n', '"', '|', '&', ';', '<', '>', '(', ')', '$', '`', '*', '?', '[', ']', '#', '~', '=', '%', '!', '{', '}'}
  }

  function Step(l: Lexer, c: char): Lexer {
    match l.mode
    case Failed => l
    case Quote => if c == '\'' then l.(mode := Plain) else l.(word := l.word + [c])
    case Escape => if c == '\n' then l.(mode := Plain) else l.(mode := Plain, begun := true, word := l.word + [c])
    case Plain =>
      if c == '\'' then l.(mode := Quote, begun := true)
      else if c == '\\' then l.(mode := Escape)
      else if c == ' ' || c == '\t' then EndWord(l)
      else if IsSpecial(c) then l.(mode := Failed)
      else l.(begun := true, word := l.word + [c])
  }

  function EndWord(l: Lexer): Lexer {
    if l.begun then l.(words := l.words + [l.word], begun := false, word := "") else l
  }

  function Run(l: Lexer, text: string): Lexer {
    if text == "" then l else Step(Run(l, text[..|text| - 1]), text[|text| - 1])
  }

  datatype Result = Words(words: seq<string>) | NotWords

  function Lex(text: string): Result {
    var l := Run(START, text);
    if l.mode == Plain then Words(EndWord(l).words) else NotWords
  }

  lemma {:induction false} RunAppend(l: Lexer, a: string, b: string)
    ensures Run(l, a + b) == Run(Run(l, a), b)
  {
    if b == "" {
      assert a + b == a;
    } else {
      var n := |b| - 1;
      RunAppend(l, a, b[..n]);
      assert (a + b)[..|a + b| - 1] == a + b[..n];
    }
  }

  lemma {:induction false} RunOne(l: Lexer, c: char)
    ensures Run(l, [c]) == Step(l, c)
  {
    assert [c][..0] == "";
    assert Run(l, [c][..0]) == l;
  }

  // ---------- the quoting ----------

  function Escaped(s: string): string {
    if s == "" then "" else Escaped(s[..|s| - 1]) + if s[|s| - 1] == '\'' then "'\\''" else [s[|s| - 1]]
  }

  function Quoted(s: string): string {
    "'" + Escaped(s) + "'"
  }

  method ShellQuote(s: string) returns (out: string)
    ensures out == Quoted(s)
    ensures Lex(out) == Words([s])
  {
    out := "'";
    for i := 0 to |s|
      invariant out == "'" + Escaped(s[..i])
    {
      assert s[..i + 1][..i] == s[..i];
      if s[i] == '\'' {
        out := out + "'\\''";
        continue;
      }
      out := out + [s[i]];
    }
    assert s[..|s|] == s;
    out := out + "'";
    QuotedIsOneWord(s);
  }

  // An embedded quote leaves the quotes, is escaped, and enters them again.
  lemma {:induction false} RunQuote(l: Lexer)
    requires l.mode == Quote && l.begun
    ensures Run(l, "'\\''") == l.(word := l.word + "'")
  {
    var steps := "'\\''";
    assert steps == (("'" + "\\") + "'") + "'";
    RunAppend(l, ("'" + "\\") + "'", "'");
    RunAppend(l, "'" + "\\", "'");
    RunAppend(l, "'", "\\");
    RunOne(l, '\'');
    RunOne(Run(l, "'"), '\\');
    RunOne(Run(l, "'" + "\\"), '\'');
    RunOne(Run(l, ("'" + "\\") + "'"), '\'');
  }

  lemma {:induction false} RunEscaped(l: Lexer, s: string)
    requires l.mode == Quote && l.begun
    ensures Run(l, Escaped(s)) == l.(word := l.word + s)
  {
    if s == "" {
      assert l.word + s == l.word;
    } else {
      var n := |s| - 1;
      RunEscaped(l, s[..n]);
      var l' := Run(l, Escaped(s[..n]));
      assert s == s[..n] + [s[n]];
      assert l'.word + [s[n]] == l.word + s;
      if s[n] == '\'' {
        RunAppend(l, Escaped(s[..n]), "'\\''");
        RunQuote(l');
      } else {
        RunAppend(l, Escaped(s[..n]), [s[n]]);
        RunOne(l', s[n]);
      }
    }
  }

  // Wherever the lexer stands outside quotes, a quoted text adds exactly that
  // text to the current word, whatever characters it holds.
  lemma {:induction false} QuotedIsLiteral(l: Lexer, s: string)
    requires l.mode == Plain
    ensures Run(l, Quoted(s)) == l.(begun := true, word := l.word + s)
  {
    RunOne(l, '\'');
    RunAppend(l, "'", Escaped(s));
    RunEscaped(Run(l, "'"), s);
    RunAppend(l, "'" + Escaped(s), "'");
    RunOne(Run(l, "'" + Escaped(s)), '\'');
  }

  lemma {:induction false} QuotedIsOneWord(s: string)
    ensures Lex(Quoted(s)) == Words([s])
  {
    QuotedIsLiteral(START, s);
    assert "" + s == s;
  }

  // As the last argument of a command it becomes that command's last word.
  lemma {:induction false} QuotedArgument(command: string, s: string)
    requires Lex(command).Words?
    ensures Lex(command + " " + Quoted(s)) == Words(Lex(command).words + [s])
  {
    var l := Run(START, command);
    RunAppend(START, command, " ");
    RunOne(l, ' ');
    RunAppend(START, command + " ", Quoted(s));
    QuotedIsLiteral(EndWord(l), s);
    WordIsEmpty(START, command);
    assert EndWord(l).word + s == s;
  }

  lemma {:induction false} WordIsEmpty(l: Lexer, text: string)
    requires !l.begun ==> l.word == "" && l.mode != Quote
    ensures var r := Run(l, text); !r.begun ==> r.word == "" && r.mode != Quote
  {
    if text != "" { WordIsEmpty(l, text[..|text| - 1]); }
  }

  // The command made of a native delete removes the given path and no other.
  lemma {:induction false} DeleteCommand(path: string)
    ensures Lex("rm -rf " + Quoted(path)) == Words(["rm", "-rf", path])
  {
    LexDelete();
    QuotedArgument("rm -rf", path);
    assert "rm -rf" + " " + Quoted(path) == "rm -rf " + Quoted(path);
    assert ["rm", "-rf"] + [path] == ["rm", "-rf", path];
  }

  predicate IsOrdinary(c: char) {
    c !in {'\'', '\\', ' ', '\t'} && !IsSpecial(c)
  }

  lemma {:induction false} OrdinaryIsLiteral(l: Lexer, text: string)
    requires l.mode == Plain && text != "" && forall c | c in text :: IsOrdinary(c)
    ensures Run(l, text) == l.(begun := true, word := l.word + text)
  {
    var n := |text| - 1;
    assert text == text[..n] + [text[n]] && IsOrdinary(text[n]);
    if n == 0 {
      RunOne(l, text[0]);
      assert text == [text[0]];
    } else {
      OrdinaryIsLiteral(l, text[..n]);
      assert (l.word + text[..n]) + [text[n]] == l.word + text;
    }
  }

  predicate IsWord(text: string) {
    text != "" && forall c | c in text :: IsOrdinary(c)
  }

  lemma {:induction false} TwoWords(a: string, b: string)
    requires IsWord(a) && IsWord(b)
    ensures Lex(a + " " + b) == Words([a, b])
  {
    OrdinaryIsLiteral(START, a);
    assert "" + a == a;
    var first := Lexer([], true, a, Plain);
    assert Run(START, a) == first;
    RunAppend(START, a + " ", b);
    RunAppend(START, a, " ");
    RunOne(first, ' ');
    var second := Lexer([a], false, "", Plain);
    assert Step(first, ' ') == second;
    OrdinaryIsLiteral(second, b);
    assert "" + b == b;
    assert Run(START, a + " " + b) == Lexer([a], true, b, Plain);
    assert [a] + [b] == [a, b];
  }

  lemma {:induction false} LexDelete()
    ensures Lex("rm -rf") == Words(["rm", "-rf"])
  {
    assert IsOrdinary('r') && IsOrdinary('m') && IsOrdinary('f') && IsOrdinary('-');
    TwoWords("rm", "-rf");
    assert "rm" + " " + "-rf" == "rm -rf";
  }
}
