/**
 * Quoting for POSIX shells: Python's `shlex.quote`, and the part of the
 * shell's token recognition (IEEE Std 1003.1, Shell Command Language,
 * sections 2.2 Quoting, 2.3 Token Recognition and 2.6.2 Parameter
 * Expansion) needed to say which words a command line hands to the program
 * it starts. Anything outside that part (command substitution, unquoted
 * expansions, globbing, redirections, operators other than `|`) reads as
 * `None`.
 */
module PosixShell {
  import opened Wrappers
  import opened Text

  /** The characters `shlex.quote` leaves unquoted: ASCII letters, digits and `_@%+=:,./-`. */
  predicate SafeChar(c: char)
  {
    ('a' <= c <= 'z') || ('A' <= c <= 'Z') || ('0' <= c <= '9') || c == '_' || c == '@' || c == '%'
    || c == '+' || c == '=' || c == ':' || c == ',' || c == '.' || c == '/' || c == '-'
  }

  predicate AllSafe(s: string)
  {
    forall i :: 0 <= i < |s| ==> SafeChar(s[i])
  }

  /** What `shlex.quote` puts in place of a single quote inside a quoted word. */
  const QuoteEscape: string := "'\"'\"'"

  /** `shlex.quote(s)`. */
  function Quote(s: string): (q: string)
    ensures |q| > 0 && !EndsWord(q[0])
  {
    if s == [] then "''"
    else if AllSafe(s) then s
    else "'" + Replace(s, "'", QuoteEscape) + "'"
  }

  datatype Token = Word(text: string) | Pipe

  /** Characters that end an unquoted word: blanks and the pipe operator. */
  predicate EndsWord(c: char)
  {
    c == ' ' || c == '\t' || c == '|'
  }

  predicate NameStart(c: char)
  {
    ('a' <= c <= 'z') || ('A' <= c <= 'Z') || c == '_'
  }

  predicate NameChar(c: char)
  {
    NameStart(c) || ('0' <= c <= '9')
  }

  /**
   * The value of a double-quoted string from just after its opening quote up to
   * its closing quote, and the text after the closing quote. Inside, a
   * backslash escapes `$`, a backquote, `"` and itself, and `$NAME` expands to
   * the variable's value in `env`.
   */
  function DoubleQuoted(s: string, env: string -> string): (r: Option<(string, string)>)
    ensures r.Some? ==> |r.value.1| < |s|
    decreases |s|
  {
    if s == [] then None
    else if s[0] == '"' then Some(("", s[1..]))
    else if s[0] == '\\' && |s| >= 2 && (s[1] == '$' || s[1] == '`' || s[1] == '"' || s[1] == '\\') then
      Prepend([s[1]], DoubleQuoted(s[2..], env))
    else if s[0] == '$' && |s| >= 2 && NameStart(s[1]) then
      var n := RunLength(s[1..], NameChar);
      Prepend(env(s[1..1 + n]), DoubleQuoted(s[1 + n..], env))
    else if s[0] == '$' || s[0] == '`' then None
    else Prepend([s[0]], DoubleQuoted(s[1..], env))
  }

  /** Characters a double-quoted string keeps as they are. */
  predicate PlainInDouble(c: char)
  {
    c != '"' && c != '\\' && c != '$' && c != '`'
  }

  /** Inside double quotes, a run of plain characters stands for itself. */
  lemma {:induction false} PlainDoubleQuoted(p: string, rest: string, env: string -> string)
    requires forall i :: 0 <= i < |p| ==> PlainInDouble(p[i])
    ensures DoubleQuoted(p + rest, env) == Prepend(p, DoubleQuoted(rest, env))
    decreases |p|
  {
    var s := p + rest;
    if p == [] {
      assert s == rest;
      match DoubleQuoted(rest, env) {
        case None =>
        case Some((v, after)) => assert "" + v == v;
      }
    } else {
      assert s[0] == p[0] && s[1..] == p[1..] + rest;
      PlainDoubleQuoted(p[1..], rest, env);
      PrependPrepend([p[0]], p[1..], DoubleQuoted(rest, env));
      assert [p[0]] + p[1..] == p;
    }
  }

  /**
   * The value of the word at the head of `s` and the text after it, which is
   * empty or starts with a character that ends a word.
   */
  function WordTail(s: string, env: string -> string): (r: Option<(string, string)>)
    ensures r.Some? ==> |r.value.1| <= |s|
    ensures r.Some? && s != [] && !EndsWord(s[0]) ==> |r.value.1| < |s|
    ensures r.Some? ==> r.value.1 == [] || EndsWord(r.value.1[0])
    decreases |s|
  {
    if s == [] || EndsWord(s[0]) then Some(("", s))
    else if s[0] == '\'' then
      var close := IndexOf(s[1..], '\'');
      if close == |s| - 1 then None
      else Prepend(s[1..close + 1], WordTail(s[close + 2..], env))
    else if s[0] == '"' then
      match DoubleQuoted(s[1..], env)
      case None => None
      case Some((v, rest)) => Prepend(v, WordTail(rest, env))
    else if s[0] == '\\' && |s| >= 2 && s[1] != '\n' then Prepend([s[1]], WordTail(s[2..], env))
    else if SafeChar(s[0]) then Prepend([s[0]], WordTail(s[1..], env))
    else None
  }

  function PrependToken(t: Token, r: Option<seq<Token>>): Option<seq<Token>>
  {
    match r
    case Some(ts) => Some([t] + ts)
    case None => None
  }

  function PrependTokens(ts: seq<Token>, r: Option<seq<Token>>): Option<seq<Token>>
  {
    match r
    case Some(us) => Some(ts + us)
    case None => None
  }

  /** The words and pipe operators of a command line, with `env` giving the shell's variables. */
  function Tokens(s: string, env: string -> string): Option<seq<Token>>
    decreases |s|
  {
    if s == [] then Some([])
    else if s[0] == ' ' || s[0] == '\t' then Tokens(s[1..], env)
    else if s[0] == '|' then PrependToken(Pipe, Tokens(s[1..], env))
    else
      match WordTail(s, env)
      case None => None
      case Some((v, rest)) => PrependToken(Word(v), Tokens(rest, env))
  }

  /** A word made of safe characters stands for itself. */
  lemma {:induction false} SafeWordTail(p: string, rest: string, env: string -> string)
    requires AllSafe(p)
    requires rest == [] || EndsWord(rest[0])
    ensures WordTail(p + rest, env) == Some((p, rest))
    decreases |p|
  {
    if p != [] {
      var s := p + rest;
      assert s[0] == p[0] && SafeChar(p[0]);
      assert !EndsWord(s[0]) && s[0] != '\'' && s[0] != '"' && s[0] != '\\';
      assert WordTail(s, env) == Prepend([p[0]], WordTail(s[1..], env));
      SafeWordTail(p[1..], rest, env);
      assert s[1..] == p[1..] + rest;
      assert [p[0]] + p[1..] == p;
    } else {
      assert p + rest == rest;
    }
  }

  /** A single-quoted run without quotes inside stands for its contents. */
  lemma SingleQuotedChunk(a: string, after: string, env: string -> string)
    requires '\'' !in a
    ensures WordTail("'" + a + "'" + after, env) == Prepend(a, WordTail(after, env))
  {
    var s := "'" + a + "'" + after;
    assert s[1..] == a + "'" + after;
    IndexOfAfter(a, '\'', after);
    assert s[|a| + 2..] == after;
    assert s[1..|a| + 1] == a;
  }

  /** A double-quoted single quote stands for a single quote. */
  lemma DoubleQuotedQuote(after: string, env: string -> string)
    ensures WordTail("\"'\"" + after, env) == Prepend("'", WordTail(after, env))
  {
    var s := "\"'\"" + after;
    var t := "'\"" + after;
    var u := "\"" + after;
    assert s[0] == '"' && s[1..] == t;
    assert t[0] == '\'' && t[1..] == u;
    assert u[0] == '"' && u[1..] == after;
    assert DoubleQuoted(u, env) == Some(("", after));
    assert DoubleQuoted(t, env) == Prepend([t[0]], DoubleQuoted(u, env));
    assert [t[0]] + "" == "'";
  }

  /** The escaped form of a quote-free `a`, an escaped quote, then the rest. */
  lemma EscapedQuoteStep(a: string, b: string, rest: string, env: string -> string)
    requires '\'' !in a
    ensures WordTail("'" + (a + QuoteEscape + Replace(b, "'", QuoteEscape)) + "'" + rest, env)
         == Prepend(a + "'", WordTail("'" + Replace(b, "'", QuoteEscape) + "'" + rest, env))
  {
    var eb := Replace(b, "'", QuoteEscape);
    var after := "'" + eb + "'" + rest;
    assert "'" + (a + QuoteEscape + eb) + "'" + rest == "'" + a + "'" + ("\"'\"" + after);
    SingleQuotedChunk(a, "\"'\"" + after, env);
    DoubleQuotedQuote(after, env);
    PrependPrepend(a, "'", WordTail(after, env));
  }

  /** Inside single quotes, the escaped form of `p` followed by the closing quote stands for `p`. */
  lemma {:induction false} SingleQuotedTail(p: string, rest: string, env: string -> string)
    ensures WordTail("'" + Replace(p, "'", QuoteEscape) + "'" + rest, env)
         == Prepend(p, WordTail(rest, env))
    decreases |p|
  {
    var i := IndexOf(p, '\'');
    if i == |p| {
      assert Replace(p, "'", QuoteEscape) == p by {
        ReplaceCharFirst(p, '\'', QuoteEscape);
      }
      SingleQuotedChunk(p, rest, env);
    } else {
      var a, b := p[..i], p[i + 1..];
      var eb := Replace(b, "'", QuoteEscape);
      var tail := WordTail("'" + eb + "'" + rest, env);
      assert WordTail("'" + Replace(p, "'", QuoteEscape) + "'" + rest, env) == Prepend(a + "'", tail) by {
        ReplaceCharFirst(p, '\'', QuoteEscape);
        assert Replace(p, "'", QuoteEscape) == a + QuoteEscape + eb;
        EscapedQuoteStep(a, b, rest, env);
      }
      assert tail == Prepend(b, WordTail(rest, env)) by {
        SingleQuotedTail(b, rest, env);
      }
      assert p == a + "'" + b;
      PrependPrepend(a + "'", b, WordTail(rest, env));
    }
  }

  /** `shlex.quote(p)`, read back by the shell, is exactly the one word `p`. */
  lemma QuoteWordTail(p: string, rest: string, env: string -> string)
    requires rest == [] || EndsWord(rest[0])
    ensures WordTail(Quote(p) + rest, env) == Some((p, rest))
  {
    if p == [] {
      var s := "''" + rest;
      assert s[1..] == "'" + rest;
      assert s[2..] == rest;
    } else if AllSafe(p) {
      SafeWordTail(p, rest, env);
    } else {
      SingleQuotedTail(p, rest, env);
      assert WordTail(rest, env) == Some(("", rest));
      assert p + "" == p;
    }
  }

  /** Each word passed through `shlex.quote`. */
  function QuoteAll(words: seq<string>): (qs: seq<string>)
    ensures |qs| == |words|
  {
    if words == [] then [] else [Quote(words[0])] + QuoteAll(words[1..])
  }

  function WordTokens(words: seq<string>): (ts: seq<Token>)
    ensures |ts| == |words|
  {
    if words == [] then [] else [Word(words[0])] + WordTokens(words[1..])
  }

  /** The command line `" ".join(shlex.quote(w) for w in words)`. */
  function QuotedLine(words: seq<string>): string
  {
    Join(" ", QuoteAll(words))
  }

  lemma QuotedLineCons(w: string, ws: seq<string>)
    ensures QuotedLine([w] + ws) == Quote(w) + (if ws == [] then "" else " " + QuotedLine(ws))
  {
    assert ([w] + ws)[1..] == ws;
    assert QuoteAll([w] + ws) == [Quote(w)] + QuoteAll(ws);
  }

  /** A command line that opens with a word reads as that word, then the rest. */
  lemma TokensOfWord(s: string, v: string, rest: string, env: string -> string)
    requires s != [] && !EndsWord(s[0])
    requires WordTail(s, env) == Some((v, rest))
    ensures Tokens(s, env) == PrependToken(Word(v), Tokens(rest, env))
  {
  }

  lemma PrependTokenTokens(t: Token, ts: seq<Token>, r: Option<seq<Token>>)
    ensures PrependToken(t, PrependTokens(ts, r)) == PrependTokens([t] + ts, r)
  {
    match r {
      case None =>
      case Some(us) =>
        assert [t] + (ts + us) == [t] + ts + us;
    }
  }

  /** A blank before a token is skipped. */
  lemma TokensSkipBlank(s: string, env: string -> string)
    requires s != [] && s[0] == ' '
    ensures Tokens(s, env) == Tokens(s[1..], env)
  {
  }

  /** A `|` reads as the pipe operator. */
  lemma TokensOfPipe(s: string, env: string -> string)
    requires s != [] && s[0] == '|'
    ensures Tokens(s, env) == PrependToken(Pipe, Tokens(s[1..], env))
  {
  }

  lemma PrependTokensNone(r: Option<seq<Token>>)
    ensures PrependTokens([], r) == r
  {
    match r {
      case None =>
      case Some(ts) => assert [] + ts == ts;
    }
  }

  /** A quoted word before a word boundary reads as that word, then whatever follows. */
  lemma QuotedWordThen(w: string, after: string, env: string -> string)
    requires after == [] || EndsWord(after[0])
    ensures Tokens(Quote(w) + after, env) == PrependToken(Word(w), Tokens(after, env))
  {
    QuoteWordTail(w, after, env);
    TokensOfWord(Quote(w) + after, w, after, env);
  }

  /** A line of one quoted word. */
  lemma QuotedLineSingle(w: string, rest: string, env: string -> string)
    requires rest == [] || EndsWord(rest[0])
    ensures Tokens(QuotedLine([w]) + rest, env) == PrependTokens(WordTokens([w]), Tokens(rest, env))
  {
    assert QuotedLine([w]) == Quote(w) by {
      QuotedLineCons(w, []);
    }
    QuotedWordThen(w, rest, env);
    assert WordTokens([w]) == [Word(w)];
    PrependTokensNone(Tokens(rest, env));
    PrependTokenTokens(Word(w), [], Tokens(rest, env));
  }

  /** A line of two or more quoted words reads as its first word, then the line of the others. */
  lemma QuotedLineHead(w: string, ws: seq<string>, rest: string, env: string -> string)
    requires ws != []
    ensures Tokens(QuotedLine([w] + ws) + rest, env) == PrependToken(Word(w), Tokens(QuotedLine(ws) + rest, env))
  {
    var tail := QuotedLine(ws) + rest;
    var after := " " + tail;
    assert QuotedLine([w] + ws) + rest == Quote(w) + after by {
      QuotedLineCons(w, ws);
    }
    QuotedWordThen(w, after, env);
    assert after[1..] == tail;
    TokensSkipBlank(after, env);
  }

  lemma WordTokensCons(w: string, ws: seq<string>)
    ensures WordTokens([w] + ws) == [Word(w)] + WordTokens(ws)
  {
    assert ([w] + ws)[1..] == ws;
  }

  /** A line of quoted words, whatever they hold, reads back as exactly those words. */
  lemma {:induction false} QuotedLineTokens(words: seq<string>, rest: string, env: string -> string)
    requires rest == [] || EndsWord(rest[0])
    ensures Tokens(QuotedLine(words) + rest, env) == PrependTokens(WordTokens(words), Tokens(rest, env))
    decreases |words|
  {
    if words == [] {
      assert QuotedLine(words) + rest == rest;
      PrependTokensNone(Tokens(rest, env));
    } else {
      var w, ws := words[0], words[1..];
      assert words == [w] + ws;
      if ws == [] {
        QuotedLineSingle(w, rest, env);
      } else {
        QuotedLineTokens(ws, rest, env);
        QuotedLineHead(w, ws, rest, env);
        WordTokensCons(w, ws);
        PrependTokenTokens(Word(w), WordTokens(ws), Tokens(rest, env));
      }
    }
  }

  /** A whole line of quoted words reads back as those words. */
  lemma QuotedLineReadsBack(words: seq<string>, env: string -> string)
    ensures Tokens(QuotedLine(words), env) == Some(WordTokens(words))
  {
    QuotedLineTokens(words, "", env);
    assert QuotedLine(words) + "" == QuotedLine(words);
    assert WordTokens(words) + [] == WordTokens(words);
  }

  /** A pipe between blanks, then a quoted line, reads as the operator and then the words. */
  lemma PipeThenQuotedLine(right: seq<string>, env: string -> string)
    ensures Tokens(" | " + QuotedLine(right), env) == Some([Pipe] + WordTokens(right))
  {
    var r := QuotedLine(right);
    var rest := " | " + r;
    var bar := rest[1..];
    assert bar == "| " + r && bar[1..] == " " + r && bar[1..][1..] == r;
    TokensSkipBlank(rest, env);
    TokensOfPipe(bar, env);
    TokensSkipBlank(bar[1..], env);
    QuotedLineReadsBack(right, env);
  }

  /** Two quoted command lines joined by a pipe read back as both word lists around the operator. */
  lemma QuotedPipelineReadsBack(left: seq<string>, right: seq<string>, env: string -> string)
    ensures Tokens(QuotedLine(left) + " | " + QuotedLine(right), env)
         == Some(WordTokens(left) + [Pipe] + WordTokens(right))
  {
    var rest := " | " + QuotedLine(right);
    assert QuotedLine(left) + " | " + QuotedLine(right) == QuotedLine(left) + rest;
    QuotedLineTokens(left, rest, env);
    PipeThenQuotedLine(right, env);
    assert WordTokens(left) + ([Pipe] + WordTokens(right)) == WordTokens(left) + [Pipe] + WordTokens(right);
  }
}
