/**
 * `check_java`: reads the Java major version out of what `java -version`
 * and `javac -version` print, and passes when it is 11 or later. The two
 * outputs are parameters here; running the programs is not modelled.
 */
module CheckJava {
  import opened Wrappers
  import opened Text
  import opened ToolResults

  const ToolName: string := "check_java"
  const Command: string := "java -version; javac -version; env JAVA_HOME"
  const MinimumMajor: nat := 11

  predicate NotDigit(c: char)
  {
    !IsDigit(c)
  }

  /** The groups of a version match: the first digits, and the digits after a following `.` or `-`, if any. */
  datatype VersionMatch = VersionMatch(major: string, minor: Option<string>)

  /**
   * `re.search(r'"?(\d+)(?:[\.\-](\d+))?', text)`. The leftmost match
   * starts at the first digit (or at a quote just before it), the first
   * group takes the whole run of digits there, and the optional group
   * takes a `.` or `-` followed by at least one digit.
   */
  function SearchVersion(text: string): (m: Option<VersionMatch>)
    ensures m.None? <==> forall i :: 0 <= i < |text| ==> !IsDigit(text[i])
    ensures m.Some? ==> IsDigitString(m.value.major)
    ensures m.Some? && m.value.minor.Some? ==> IsDigitString(m.value.minor.value)
  {
    var start := RunLength(text, NotDigit);
    if start == |text| then None
    else
      var rest := text[start..];
      var n := RunLength(rest, IsDigit);
      var after := rest[n..];
      var minor :=
        if |after| >= 2 && (after[0] == '.' || after[0] == '-') && IsDigit(after[1])
        then Some(after[1..][..RunLength(after[1..], IsDigit)])
        else None;
      Some(VersionMatch(rest[..n], minor))
  }

  /** `parse_java_major`: 0 without a digit; a legacy `1.x` or `1-x` gives `x`; otherwise the first number. */
  function ParseJavaMajor(text: string): (major: nat)
    ensures (forall i :: 0 <= i < |text| ==> !IsDigit(text[i])) ==> major == 0
  {
    if text == [] then 0
    else
      match SearchVersion(text)
      case None => 0
      case Some(m) =>
        var first := DigitsValue(m.major);
        if first == 1 && m.minor.Some? then DigitsValue(m.minor.value) else first
  }

  /** Where the first number starts, after a stretch without digits, and where the match continues. */
  lemma FirstNumber(pre: string, d: string, rest: string)
    requires forall i :: 0 <= i < |pre| ==> !IsDigit(pre[i])
    requires IsDigitString(d) && (rest == [] || !IsDigit(rest[0]))
    ensures SearchVersion(pre + d + rest).Some?
    ensures SearchVersion(pre + d + rest).value.major == d
    ensures SearchVersion(pre + d + rest).value.minor
         == (if |rest| >= 2 && (rest[0] == '.' || rest[0] == '-') && IsDigit(rest[1])
             then Some(rest[1..][..RunLength(rest[1..], IsDigit)]) else None)
  {
    var text := pre + d + rest;
    assert text == pre + (d + rest);
    RunLengthOf(pre, d + rest, NotDigit);
    assert text[|pre|..] == d + rest;
    RunLengthOf(d, rest, IsDigit);
    assert (d + rest)[..|d|] == d && (d + rest)[|d|..] == rest;
  }

  /** The major version is the first number in the text, unless that number is 1. */
  lemma MajorIsFirstNumber(pre: string, d: string, rest: string)
    requires forall i :: 0 <= i < |pre| ==> !IsDigit(pre[i])
    requires IsDigitString(d) && (rest == [] || !IsDigit(rest[0]))
    requires DigitsValue(d) != 1
    ensures ParseJavaMajor(pre + d + rest) == DigitsValue(d)
  {
    FirstNumber(pre, d, rest);
  }

  /** A `.` or `-` and then digits: the optional group takes those digits. */
  lemma MinorRun(sep: char, d: string, rest: string)
    requires sep == '.' || sep == '-'
    requires IsDigitString(d) && (rest == [] || !IsDigit(rest[0]))
    ensures var tail := [sep] + d + rest;
      |tail| >= 2 && (tail[0] == '.' || tail[0] == '-') && IsDigit(tail[1])
      && tail[1..][..RunLength(tail[1..], IsDigit)] == d
  {
    var tail := [sep] + d + rest;
    assert tail[1..] == d + rest;
    RunLengthOf(d, rest, IsDigit);
    assert (d + rest)[..|d|] == d;
  }

  lemma OneValue()
    ensures IsDigitString("1") && DigitsValue("1") == 1
  {
  }

  /** A legacy `1.x` (or `1-x`) gives `x`: `1.8.0_351` is Java 8. */
  lemma LegacyMajor(pre: string, sep: char, d: string, rest: string)
    requires forall i :: 0 <= i < |pre| ==> !IsDigit(pre[i])
    requires sep == '.' || sep == '-'
    requires IsDigitString(d) && (rest == [] || !IsDigit(rest[0]))
    ensures ParseJavaMajor(pre + "1" + ([sep] + d + rest)) == DigitsValue(d)
  {
    OneValue();
    MinorRun(sep, d, rest);
    FirstNumber(pre, "1", [sep] + d + rest);
  }

  /** A bare `1`, with no `.` or `-` and digits after it, stays 1. */
  lemma BareOne(pre: string, rest: string)
    requires forall i :: 0 <= i < |pre| ==> !IsDigit(pre[i])
    requires rest == [] || !IsDigit(rest[0])
    requires !(|rest| >= 2 && (rest[0] == '.' || rest[0] == '-') && IsDigit(rest[1]))
    ensures ParseJavaMajor(pre + "1" + rest) == 1
  {
    OneValue();
    FirstNumber(pre, "1", rest);
  }

  /** The result of `run` for the two (stripped) outputs. */
  function JavaResult(javaOut: string, javacOut: string): ToolResult
  {
    var major := ParseJavaMajor(javaOut + "\n" + javacOut);
    ToolResult(ToolName, if major >= MinimumMajor then "Success" else "Failed", Command,
      "Detected Java major version: " + NatToString(major) + ".",
      javaOut + (if javacOut != "" then "\n" + javacOut else ""))
  }

  /** The check passes exactly when the major version read is 11 or later. */
  lemma PassesFromEleven(javaOut: string, javacOut: string)
    ensures JavaResult(javaOut, javacOut).status == "Success" <==> ParseJavaMajor(javaOut + "\n" + javacOut) >= 11
    ensures JavaResult(javaOut, javacOut).status == "Success" || JavaResult(javaOut, javacOut).status == "Failed"
  {
  }

  /** A Java whose version text starts with a number of at least 11 passes, whatever `javac` printed. */
  lemma ModernJavaPasses(pre: string, d: string, rest: string, javacOut: string)
    requires forall i :: 0 <= i < |pre| ==> !IsDigit(pre[i])
    requires IsDigitString(d) && (rest == [] || !IsDigit(rest[0]))
    requires DigitsValue(d) >= 11
    ensures JavaResult(pre + d + rest, javacOut).status == "Success"
  {
    var text := pre + d + (rest + "\n" + javacOut);
    assert (pre + d + rest) + "\n" + javacOut == text;
    assert rest + "\n" + javacOut == [] || !IsDigit((rest + "\n" + javacOut)[0]);
    MajorIsFirstNumber(pre, d, rest + "\n" + javacOut);
  }

  /** A legacy `1.x` Java with `x` below 11 fails, whatever `javac` printed. */
  lemma LegacyJavaFails(pre: string, sep: char, d: string, rest: string, javacOut: string)
    requires forall i :: 0 <= i < |pre| ==> !IsDigit(pre[i])
    requires sep == '.' || sep == '-'
    requires IsDigitString(d) && (rest == [] || !IsDigit(rest[0]))
    requires DigitsValue(d) < 11
    ensures JavaResult(pre + "1" + ([sep] + d + rest), javacOut).status == "Failed"
  {
    var tail := rest + "\n" + javacOut;
    assert (pre + "1" + ([sep] + d + rest)) + "\n" + javacOut == pre + "1" + ([sep] + d + tail);
    assert tail == [] || !IsDigit(tail[0]);
    LegacyMajor(pre, sep, d, tail);
  }
}
