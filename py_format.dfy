/**
 * Python's `str.format` with one keyword argument, as the tools call it:
 * `template.format(tomcat_home=home)`, `pkg_cmd.format(packages=list)`,
 * `expr.format(folder=name)`. `{{` and `}}` stand for single braces and
 * `{name}` for the argument called `name`. Any other replacement field, a
 * lone `}` or an unclosed `{` raises, and the tools turn the exception into
 * a failed result.
 */
module PyFormat {
  import opened Wrappers
  import opened Text
  import Values

  /** Whether a text holds no brace. */
  predicate BraceFree(s: string)
  {
    '{' !in s && '}' !in s
  }

  /** The part of a field before its attribute, index, conversion or format spec. */
  function ArgName(name: string): string
  {
    if name == [] || name[0] in {'.', '[', '!', ':'} then [] else [name[0]] + ArgName(name[1..])
  }

  /** The message of what a field other than the keyword raises: `IndexError` for a positional field, else `KeyError`. */
  function FieldError(name: string): string
  {
    var arg := ArgName(name);
    if arg == [] then "Replacement index 0 out of range for positional args tuple"
    else if AllDigits(arg) then "Replacement index " + arg + " out of range for positional args tuple"
    else "'" + arg + "'"
  }

  const LoneClose: string := "Single '}' encountered in format string"
  const LoneOpen: string := "Single '{' encountered in format string"
  const Unclosed: string := "expected '}' before end of string"
  const BraceInField: string := "unexpected '{' in field name"

  /** `prefix` before a formatted text; a failure stays the failure. */
  function Then(prefix: string, r: Result<string>): (r': Result<string>)
    ensures r'.Success? <==> r.Success?
    ensures r.Success? ==> r'.value == prefix + r.value
    ensures r.Failure? ==> r' == r
  {
    if r.Success? then Success(prefix + r.value) else r
  }

  /** `template.format(**{field: value})`, left to right: the first malformed or unknown field raises. */
  function Format(template: string, field: string, value: string): (r: Result<string>)
    decreases |template|
  {
    if template == [] then Success([])
    else if template[0] == '{' then
      if |template| >= 2 && template[1] == '{' then Then("{", Format(template[2..], field, value))
      else if |template| == 1 then Failure(LoneOpen)
      else
        var body := template[1..];
        var close := IndexOf(body, '}');
        if close == |body| then Failure(Unclosed)
        else if '{' in body[..close] then Failure(BraceInField)
        else if body[..close] == field then Then(value, Format(body[close + 1..], field, value))
        else Failure(FieldError(body[..close]))
    else if template[0] == '}' then
      if |template| >= 2 && template[1] == '}' then Then("}", Format(template[2..], field, value))
      else Failure(LoneClose)
    else Then([template[0]], Format(template[1..], field, value))
  }

  /** What calling `format` on a value that is not a string raises. */
  function NoFormat(v: Values.Value): string
  {
    "'" + Values.TypeName(v) + "' object has no attribute 'format'"
  }

  /** `template.format(**{field: value})` on a configured value: only a string has `format`. */
  function FormatValue(template: Values.Value, field: string, value: string): (r: Result<string>)
    ensures !template.VStr? ==> r == Failure(NoFormat(template))
    ensures template.VStr? ==> r == Format(template.s, field, value)
  {
    if template.VStr? then Format(template.s, field, value) else Failure(NoFormat(template))
  }

  /** A text with its braces doubled, so that formatting gives it back. */
  function Escaped(s: string): (r: string)
    ensures |r| >= |s|
  {
    if s == [] then []
    else if s[0] == '{' || s[0] == '}' then [s[0], s[0]] + Escaped(s[1..])
    else [s[0]] + Escaped(s[1..])
  }

  // ---------------------------------------------------------------------------
  // Properties

  lemma ThenThen(a: string, b: string, r: Result<string>)
    ensures Then(a, Then(b, r)) == Then(a + b, r)
  {
    if r.Success? {
      assert a + (b + r.value) == (a + b) + r.value;
    }
  }

  /** A template without braces is sent as it is. */
  lemma {:induction false} FormatPlain(t: string, field: string, value: string)
    requires BraceFree(t)
    ensures Format(t, field, value) == Success(t)
    decreases |t|
  {
    if t != [] {
      FormatPlain(t[1..], field, value);
      assert [t[0]] + t[1..] == t;
    }
  }

  /** The keyword's field, after brace-free text, becomes the value, and formatting carries on after it. */
  lemma {:induction false} FormatField(before: string, field: string, value: string, after: string)
    requires BraceFree(before) && BraceFree(field)
    ensures Format(before + "{" + field + "}" + after, field, value) == Then(before + value, Format(after, field, value))
    decreases |before|
  {
    var t := before + "{" + field + "}" + after;
    if before == [] {
      assert t == "{" + field + "}" + after;
      var body := t[1..];
      assert body == field + "}" + after;
      assert t[1] != '{' && |t| > 1;
      IndexOfAfter(field, '}', after);
      assert body[..|field|] == field;
      assert body[|field| + 1..] == after;
      assert before + value == value;
    } else {
      assert t[0] == before[0] && t[1..] == before[1..] + "{" + field + "}" + after;
      assert Format(t, field, value) == Then([t[0]], Format(t[1..], field, value));
      FormatField(before[1..], field, value, after);
      ThenThen([before[0]], before[1..] + value, Format(after, field, value));
      assert [before[0]] + (before[1..] + value) == before + value;
    }
  }

  /** The replacement field that names `name`. */
  function Field(name: string): string
  {
    "{" + name + "}"
  }

  /** A template whose one field is the keyword's becomes the text around it with the value in its place. */
  lemma FormatOnlyField(before: string, field: string, value: string, after: string)
    requires BraceFree(before) && BraceFree(field) && BraceFree(after)
    ensures Format(before + Field(field) + after, field, value) == Success(before + value + after)
  {
    assert before + Field(field) + after == before + "{" + field + "}" + after;
    FormatField(before, field, value, after);
    FormatPlain(after, field, value);
  }

  /** A field naming anything but the keyword, after brace-free text, raises. */
  lemma {:induction false} FormatOtherFieldFails(before: string, name: string, field: string, value: string, after: string)
    requires BraceFree(before) && BraceFree(name) && name != field
    ensures Format(before + "{" + name + "}" + after, field, value) == Failure(FieldError(name))
    decreases |before|
  {
    var t := before + "{" + name + "}" + after;
    if before == [] {
      assert t == "{" + name + "}" + after;
      var body := t[1..];
      assert body == name + "}" + after;
      assert t[1] != '{' && |t| > 1;
      IndexOfAfter(name, '}', after);
      assert body[..|name|] == name;
    } else {
      assert t[0] == before[0] && t[1..] == before[1..] + "{" + name + "}" + after;
      assert Format(t, field, value) == Then([t[0]], Format(t[1..], field, value));
      FormatOtherFieldFails(before[1..], name, field, value, after);
    }
  }

  /** A `}` that is not doubled, after brace-free text, raises. */
  lemma {:induction false} FormatLoneCloseFails(before: string, after: string, field: string, value: string)
    requires BraceFree(before) && (after == [] || after[0] != '}')
    ensures Format(before + "}" + after, field, value) == Failure(LoneClose)
    decreases |before|
  {
    var t := before + "}" + after;
    if before != [] {
      assert t[0] == before[0] && t[1..] == before[1..] + "}" + after;
      FormatLoneCloseFails(before[1..], after, field, value);
    } else {
      assert t == "}" + after;
    }
  }

  /** Doubling every brace is undone by formatting, whatever the keyword. */
  lemma {:induction false} FormatEscaped(s: string, field: string, value: string)
    ensures Format(Escaped(s), field, value) == Success(s)
    decreases |s|
  {
    if s != [] {
      var e := Escaped(s);
      FormatEscaped(s[1..], field, value);
      if s[0] == '{' || s[0] == '}' {
        assert e[0] == s[0] && e[1] == s[0] && e[2..] == Escaped(s[1..]);
      } else {
        assert e[0] == s[0] && e[1..] == Escaped(s[1..]);
      }
      assert [s[0]] + s[1..] == s;
    }
  }
}
