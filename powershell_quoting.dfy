/**
 * PowerShell verbatim (single-quoted) strings, as the Windows commands embed
 * paths and URLs: inside `'...'` nothing is expanded and a doubled quote
 * stands for one quote (PowerShell Language Specification 3.0, section
 * 2.3.5.2, verbatim string literals).
 */
module PowerShellQuoting {
  import opened Wrappers
  import opened Text

  /** `s.replace("'", "''")`. */
  function Escape(s: string): string
  {
    Replace(s, "'", "''")
  }

  /** `f"'{s.replace(\"'\", \"''\")}'"`. */
  function Literal(s: string): string
  {
    "'" + Escape(s) + "'"
  }

  /**
   * Reads a verbatim string from just after its opening quote: the value up to
   * the closing quote and the text after that quote.
   */
  function ReadVerbatim(s: string): (r: Option<(string, string)>)
    ensures r.Some? ==> |r.value.1| < |s|
    decreases |s|
  {
    if s == [] then None
    else if s[0] == '\'' then
      if |s| >= 2 && s[1] == '\'' then Prepend("'", ReadVerbatim(s[2..])) else Some(("", s[1..]))
    else Prepend([s[0]], ReadVerbatim(s[1..]))
  }

  /** Reads a whole verbatim string literal, opening quote included. */
  function ReadLiteral(s: string): Option<(string, string)>
  {
    if |s| > 0 && s[0] == '\'' then ReadVerbatim(s[1..]) else None
  }

  lemma EscapeCons(s: string)
    requires s != []
    ensures Escape(s) == (if s[0] == '\'' then "''" else [s[0]]) + Escape(s[1..])
  {
    assert s[..1] == [s[0]];
  }

  /** The escaped text followed by a closing quote reads back as the original text. */
  lemma {:induction false} EscapeReadsBack(s: string, rest: string)
    requires rest == [] || rest[0] != '\''
    ensures ReadVerbatim(Escape(s) + "'" + rest) == Some((s, rest))
    decreases |s|
  {
    var t := Escape(s) + "'" + rest;
    if s == [] {
      assert t == "'" + rest;
      assert t[1..] == rest;
    } else {
      EscapeCons(s);
      EscapeReadsBack(s[1..], rest);
      var tail := Escape(s[1..]) + "'" + rest;
      if s[0] == '\'' {
        assert t == "''" + tail;
        assert t[2..] == tail;
      } else {
        assert t == [s[0]] + tail;
        assert t[1..] == tail;
      }
      assert [s[0]] + s[1..] == s;
    }
  }

  /** A literal built by `Literal` reads back as exactly its text, whatever follows it. */
  lemma LiteralReadsBack(s: string, rest: string)
    requires rest == [] || rest[0] != '\''
    ensures ReadLiteral(Literal(s) + rest) == Some((s, rest))
  {
    EscapeReadsBack(s, rest);
    assert (Literal(s) + rest)[1..] == Escape(s) + "'" + rest;
  }
}
