/**
 * The remote port check (Remote/pre_install/remote_port_check.py): which
 * ports to inspect, how a listing line is recognised as holding a port and
 * which process owns it, and the summary and verdict over the listing the
 * remote host prints.
 */
module RemotePortCheck {
  import opened Wrappers
  import opened Text
  import opened Values
  import opened Sequences
  import opened RemoteExecutor
  import opened ToolResults

  const ToolName: string := "remote_port_check"

  /** The ports inspected when neither the caller nor the configuration names any. */
  const DefaultPorts: seq<Value> := [VInt(8080), VInt(8005), VInt(8009)]

  const NoPortsMessage: string := "No valid ports supplied for inspection"

  // ---------------------------------------------------------------------------
  // The port list

  predicate StrictlyIncreasing(xs: seq<int>)
  {
    forall i, j :: 0 <= i < j < |xs| ==> xs[i] < xs[j]
  }

  /** Puts `x` into its place in a strictly increasing list, unless it is there already. */
  function Insert(xs: seq<int>, x: int): (r: seq<int>)
    requires StrictlyIncreasing(xs)
    ensures StrictlyIncreasing(r)
    ensures forall p :: p in r <==> p in xs || p == x
    decreases |xs|
  {
    if xs == [] then [x]
    else if x < xs[0] then [x] + xs
    else if x == xs[0] then xs
    else
      var rest := Insert(xs[1..], x);
      assert forall p :: p in rest ==> xs[0] < p by {
        forall p | p in rest ensures xs[0] < p {
          if p in xs[1..] {
            var k :| 0 <= k < |xs[1..]| && xs[1..][k] == p;
            assert xs[k + 1] == p;
          }
        }
      }
      assert forall k :: 0 <= k < |rest| ==> rest[k] in rest;
      [xs[0]] + rest
  }

  /** `sorted(set(xs))`. */
  function SortedDistinct(xs: seq<int>): (r: seq<int>)
    ensures StrictlyIncreasing(r)
    ensures forall p :: p in r <==> p in xs
    decreases |xs|
  {
    if xs == [] then []
    else
      assert xs == xs[..|xs| - 1] + [xs[|xs| - 1]];
      Insert(SortedDistinct(xs[..|xs| - 1]), xs[|xs| - 1])
  }

  /** The head of a strictly increasing list is its least element, and the tail holds all the others. */
  lemma IncreasingHead(xs: seq<int>)
    requires StrictlyIncreasing(xs) && xs != []
    ensures forall p :: p in xs ==> xs[0] <= p
    ensures forall p :: p in xs[1..] <==> p in xs && p != xs[0]
  {
    forall p | p in xs
      ensures xs[0] <= p
      ensures p != xs[0] ==> p in xs[1..]
    {
      var k :| 0 <= k < |xs| && xs[k] == p;
      if k > 0 {
        assert xs[1..][k - 1] == p;
      }
    }
    forall p | p in xs[1..]
      ensures p in xs && p != xs[0]
    {
      var k :| 0 <= k < |xs[1..]| && xs[1..][k] == p;
      assert xs[k + 1] == p;
    }
  }

  /** A strictly increasing list is determined by its elements: `sorted(set(xs))` depends on nothing else. */
  lemma {:induction false} IncreasingUnique(xs: seq<int>, ys: seq<int>)
    requires StrictlyIncreasing(xs) && StrictlyIncreasing(ys)
    requires forall p :: p in xs <==> p in ys
    ensures xs == ys
    decreases |xs|
  {
    if xs == [] {
      assert forall p :: p !in ys;
      NothingInIsEmpty(ys);
    } else if ys == [] {
      assert forall p :: p !in xs;
      NothingInIsEmpty(xs);
    } else {
      IncreasingHead(xs);
      IncreasingHead(ys);
      assert xs[0] in xs && ys[0] in ys;
      assert xs[0] <= ys[0] && ys[0] <= xs[0];
      assert StrictlyIncreasing(xs[1..]) && StrictlyIncreasing(ys[1..]);
      IncreasingUnique(xs[1..], ys[1..]);
      assert xs == [xs[0]] + xs[1..] && ys == [ys[0]] + ys[1..];
    }
  }

  /** `int(item.strip())` for a string, `int(item)` otherwise; `None` where Python raises. */
  function PortOf(item: Value): Option<int>
  {
    if item.VStr? then ParseInt(Strip(item.s)) else PyInt(item)
  }

  /** The loop of `_normalize_ports`: every item that converts, in order, skipping the others. */
  function ParsedInts(items: seq<Value>): seq<int>
  {
    Collect(items, PortOf)
  }

  /** `_normalize_ports(items)`: the ports the items name, ascending, each once. */
  function NormalizedPorts(items: seq<Value>): (ports: seq<int>)
    ensures StrictlyIncreasing(ports)
    ensures forall p :: p in ports <==> exists i :: 0 <= i < |items| && PortOf(items[i]) == Some(p)
  {
    CollectMembers(items, PortOf);
    SortedDistinct(ParsedInts(items))
  }

  /** Reordering or repeating the items does not change the port list. */
  lemma NormalizedIgnoresOrder(items: seq<Value>, others: seq<Value>)
    requires forall v :: v in items <==> v in others
    ensures NormalizedPorts(items) == NormalizedPorts(others)
  {
    var xs, ys := NormalizedPorts(items), NormalizedPorts(others);
    forall p
      ensures p in xs <==> p in ys
    {
      if p in xs {
        var i :| 0 <= i < |items| && PortOf(items[i]) == Some(p);
        assert items[i] in others;
        var j :| 0 <= j < |others| && others[j] == items[i];
      }
      if p in ys {
        var i :| 0 <= i < |others| && PortOf(others[i]) == Some(p);
        assert others[i] in items;
        var j :| 0 <= j < |items| && items[j] == others[i];
      }
    }
    IncreasingUnique(xs, ys);
  }

  /** The default ports, once normalised. */
  lemma DefaultPortsSorted()
    ensures NormalizedPorts(DefaultPorts) == [8005, 8009, 8080]
  {
    DefaultPortsParsed();
    var expected := [8005, 8009, 8080];
    var sorted := SortedDistinct([8080, 8005, 8009]);
    assert forall p :: p in sorted <==> p in expected;
    IncreasingUnique(sorted, expected);
  }

  /** The default ports all convert, in the order they are listed. */
  lemma DefaultPortsParsed()
    ensures ParsedInts(DefaultPorts) == [8080, 8005, 8009]
  {
    var a, b, c := VInt(8080), VInt(8005), VInt(8009);
    assert DefaultPorts == [a, b] + [c];
    assert [a, b] == [a] + [b] && [a] == [] + [a];
    CollectSnoc([], a, PortOf);
    CollectSnoc([a], b, PortOf);
    CollectSnoc([a, b], c, PortOf);
  }

  /** `_normalize_ports(items)`: the conversion loop, then `sorted(set(...))`. */
  method NormalizePorts(items: seq<Value>) returns (ports: seq<int>)
    ensures ports == NormalizedPorts(items)
  {
    var normalized := ConvertPorts(items);
    ports := SortedDistinct(normalized);
  }

  /** The loop of `_normalize_ports`: appends each item that converts. */
  method ConvertPorts(items: seq<Value>) returns (normalized: seq<int>)
    ensures normalized == ParsedInts(items)
  {
    normalized := [];
    for i := 0 to |items|
      invariant normalized == ParsedInts(items[..i])
    {
      CollectNext(items, i, PortOf);
      var converted := PortOf(items[i]);
      if converted.Some? {
        normalized := normalized + [converted.value];
      }
    }
    assert items[..|items|] == items;
  }

  /**
   * The items `for item in ports` visits: the elements of a list, or the
   * characters of a string, each a one-character string; `None` for a value
   * that does not iterate.
   */
  function IteratedItems(ports: Value): (items: Option<seq<Value>>)
    ensures ports.VStr? ==> items.Some? && |items.value| == |ports.s|
  {
    match ports
    case VList(items) => Some(items)
    case VStr(s) => Some(seq(|s|, i requires 0 <= i < |s| => VStr([s[i]])))
    case _ => None
  }

  /** One character read as a port: only a digit converts, to its own value. */
  lemma OneCharacterPort(c: char)
    ensures PortOf(VStr([c])).Some? ==> 0 <= PortOf(VStr([c])).value < 10
  {
    if IsSpace(c) {
      assert AllSpace([c]);
      assert Strip([c]) == [];
      assert ParseInt([]) == None;
    } else {
      StripUntrimmed([c]);
      OneCharacterInt(c);
    }
  }

  lemma OneCharacterInt(c: char)
    ensures ParseInt([c]).Some? ==> 0 <= ParseInt([c]).value < 10
  {
    if IsDigit(c) {
      DigitIsNotSpace(c);
      StripUntrimmed([c]);
      assert SignAndBody([c]) == (false, [c]);
      assert DigitsValue([c]) == DigitsValue([]) * 10 + DigitValue(c);
    } else if c == '-' || c == '+' {
      assert !IsSpace(c);
      StripUntrimmed([c]);
      assert SignAndBody([c]).1 == [];
    } else {
      assert !IsDigitString(SignAndBody(Strip([c])).1) by {
        if !IsSpace(c) {
          StripUntrimmed([c]);
        } else {
          assert AllSpace([c]);
        }
      }
    }
  }

  /**
   * A string port list, iterated as written, yields only the one-digit
   * ports its characters spell: "8080,8005" asks for ports 0, 5 and 8.
   */
  lemma StringPortsAreDigits(s: string)
    ensures forall p :: p in NormalizedPorts(IteratedItems(VStr(s)).value) ==> 0 <= p < 10
  {
    var items := IteratedItems(VStr(s)).value;
    forall p | p in NormalizedPorts(items)
      ensures 0 <= p < 10
    {
      var i :| 0 <= i < |items| && PortOf(items[i]) == Some(p);
      OneCharacterPort(s[i]);
    }
  }

  /**
   * The items the tool means to read, as its `ports` parameter describes
   * them ("list or comma separated"): the elements of a list, or the
   * comma-separated pieces of a string.
   */
  function PortItems(ports: Value): (items: Option<seq<Value>>)
    ensures ports.VStr? || ports.VList? <==> items.Some?
  {
    match ports
    case VList(items) => Some(items)
    case VStr(s) =>
      var pieces := Split(s, ',');
      Some(seq(|pieces|, i requires 0 <= i < |pieces| => VStr(pieces[i])))
    case _ => None
  }

  /** A comma-separated list of port numbers reads back as those ports, ascending and once each. */
  lemma CommaPortsReadBack(ports: seq<nat>)
    requires ports != []
    ensures forall p: int :: p in NormalizedPorts(PortItems(VStr(Join(",", NumberStrings(ports)))).value) <==> p in ports
  {
    CommaItemsConvert(ports);
    PortsOfConverted(PortItems(VStr(Join(",", NumberStrings(ports)))).value, ports);
  }

  /** Each comma-separated piece converts to the port it was written from. */
  lemma CommaItemsConvert(ports: seq<nat>)
    requires ports != []
    ensures |PortItems(VStr(Join(",", NumberStrings(ports)))).value| == |ports|
    ensures forall i :: 0 <= i < |ports| ==> PortOf(PortItems(VStr(Join(",", NumberStrings(ports)))).value[i]) == Some(ports[i] as int)
  {
    var strs := NumberStrings(ports);
    NumberStringsSplit(ports);
    var items := PortItems(VStr(Join(",", strs))).value;
    forall i | 0 <= i < |ports|
      ensures PortOf(items[i]) == Some(ports[i] as int)
    {
      assert items[i] == VStr(NatToString(ports[i]));
      PortOfNumber(ports[i]);
    }
  }

  /** Items that convert one for one to `ports` name exactly the ports in `ports`. */
  lemma PortsOfConverted(items: seq<Value>, ports: seq<nat>)
    requires |items| == |ports|
    requires forall i :: 0 <= i < |ports| ==> PortOf(items[i]) == Some(ports[i] as int)
    ensures forall p: int :: p in NormalizedPorts(items) <==> p in ports
  {
    forall p: int
      ensures p in NormalizedPorts(items) <==> p in ports
    {
      if p in ports {
        var i :| 0 <= i < |ports| && ports[i] == p;
        assert PortOf(items[i]) == Some(p);
      }
    }
  }

  lemma NumberStringsSplit(ports: seq<nat>)
    requires ports != []
    ensures Split(Join(",", NumberStrings(ports)), ',') == NumberStrings(ports)
  {
    var strs := NumberStrings(ports);
    forall k | 0 <= k < |strs|
      ensures ',' !in strs[k]
    {
      assert IsDigitString(strs[k]);
    }
    SplitJoin(strs, ',');
  }

  /** The decimal form of a number converts back to it. */
  lemma PortOfNumber(n: nat)
    ensures PortOf(VStr(NatToString(n))) == Some(n as int)
  {
    var d := NatToString(n);
    DigitIsNotSpace(d[0]);
    DigitIsNotSpace(d[|d| - 1]);
    StripUntrimmed(d);
    ParseIntOfNatString(n);
  }

  /** The decimal forms of some numbers. */
  function NumberStrings(ports: seq<nat>): (strs: seq<string>)
    ensures |strs| == |ports| && forall i :: 0 <= i < |ports| ==> strs[i] == NatToString(ports[i])
  {
    seq(|ports|, i requires 0 <= i < |ports| => NatToString(ports[i]))
  }

  // ---------------------------------------------------------------------------
  // Reading a listing line

  /** `:port` followed by whitespace or the end of the line starts at `i`. */
  predicate PortAt(line: string, port: int, i: int)
  {
    var tag := ":" + IntToString(port);
    OccursAt(line, tag, i) && (i + |tag| == |line| || IsSpace(line[i + |tag|]))
  }

  /** `_contains_port(line, port)`: the search for `:port(\s|$)`. */
  predicate ContainsPort(line: string, port: int)
  {
    exists i :: 0 <= i < |line| && PortAt(line, port, i)
  }

  /** The condition of the comprehension that gathers the lines naming `port`. */
  function Mentions(port: int): string -> bool
  {
    line => ContainsPort(line, port)
  }

  /**
   * In a line whose only colon is followed by the digits of `q` and then
   * whitespace or the end, exactly the port `q` is found: port 80 is not
   * found in ":8080".
   */
  lemma ColonDigitsExact(pre: string, q: nat, post: string, p: int)
    requires ':' !in pre && ':' !in post
    requires post == [] || IsSpace(post[0])
    ensures ContainsPort(pre + ":" + NatToString(q) + post, p) <==> p == q
  {
    var d := NatToString(q);
    var line := pre + ":" + d + post;
    AppendThree(pre, ":", d, post);
    if p == q {
      OwnPortFound(pre, d, post);
      assert PortAt(line, p, |pre|);
    }
    if ContainsPort(line, p) {
      var i :| 0 <= i < |line| && PortAt(line, p, i);
      FoundPortIsOwn(pre, q, post, p, i);
    }
  }

  /** Where a port is found in such a line, it is the number written after the colon. */
  lemma FoundPortIsOwn(pre: string, q: nat, post: string, p: int, i: nat)
    requires ':' !in pre && ':' !in post
    requires post == [] || IsSpace(post[0])
    requires i < |pre + ":" + NatToString(q) + post| && PortAt(pre + ":" + NatToString(q) + post, p, i)
    ensures p == q
  {
    var d := NatToString(q);
    var line := pre + ":" + d + post;
    var t := IntToString(p);
    assert line[i] == (":" + t)[0];
    OnlyColon(pre, d, post, i);
    TagTail(line, t, i);
    TailAfterTwo(pre, ":", d, post);
    IntToStringShape(p);
    SameDigits(t, d, post);
    var n: nat := p;
    assert t == NatToString(n);
    NatToStringValue(n);
    NatToStringValue(q);
  }

  /** `":" + d` followed by whitespace or the end is found where it was put. */
  lemma OwnPortFound(pre: string, d: string, post: string)
    requires post == [] || IsSpace(post[0])
    ensures var line := pre + (":" + d + post);
      OccursAt(line, ":" + d, |pre|) && (|pre| + 1 + |d| == |line| || IsSpace(line[|pre| + 1 + |d|]))
  {
    var line := pre + (":" + d + post);
    assert line[|pre|..|pre| + 1 + |d|] == ":" + d;
    if post != [] {
      assert line[|pre| + 1 + |d|] == post[0];
    }
  }

  /** The colon between `pre` and the digits is the line's only one. */
  lemma OnlyColon(pre: string, d: string, post: string, i: nat)
    requires ':' !in pre && ':' !in post && AllDigits(d)
    requires i < |pre + (":" + d + post)| && (pre + (":" + d + post))[i] == ':'
    ensures i == |pre|
  {
    var line := pre + (":" + d + post);
    assert forall k :: 0 <= k < |pre| ==> line[k] == pre[k];
    assert forall k :: 0 <= k < |d| ==> line[|pre| + 1 + k] == d[k];
    assert forall k :: 0 <= k < |post| ==> line[|pre| + 1 + |d| + k] == post[k];
  }

  /** What follows the colon of a found `:port` is the port's text, then whitespace or the end. */
  lemma TagTail(line: string, t: string, i: nat)
    requires OccursAt(line, ":" + t, i) && (i + 1 + |t| == |line| || IsSpace(line[i + 1 + |t|]))
    ensures OccursAt(line[i + 1..], t, 0) && (|t| == |line[i + 1..]| || IsSpace(line[i + 1..][|t|]))
  {
    assert line[i + 1..][..|t|] == line[i..i + 1 + |t|][1..];
  }

  /** The shape of `str(p)`: a sign or a digit, then digits; the digits of `p` itself when it is not negative. */
  lemma IntToStringShape(p: int)
    ensures var t := IntToString(p);
      |t| > 0 && (t[0] == '-' || IsDigit(t[0])) && (forall k :: 1 <= k < |t| ==> IsDigit(t[k]))
      && (p < 0 <==> t[0] == '-')
  {
    if p < 0 {
      var n: nat := -p;
      assert IntToString(p) == "-" + NatToString(n);
    }
  }

  /**
   * A port's text read at the start of `d + post`, where it must be
   * followed by whitespace or the end, is all of the digits `d`.
   */
  lemma SameDigits(t: string, d: string, post: string)
    requires |t| > 0 && |d| > 0 && AllDigits(d)
    requires post == [] || IsSpace(post[0])
    requires (t[0] == '-' || IsDigit(t[0])) && forall k :: 1 <= k < |t| ==> IsDigit(t[k])
    requires OccursAt(d + post, t, 0) && (|t| == |d + post| || IsSpace((d + post)[|t|]))
    ensures t == d
  {
    var s := d + post;
    assert t[0] == s[0] == d[0];
    if |t| < |d| {
      assert s[|t|] == d[|t|];
      DigitIsNotSpace(d[|t|]);
    } else if |t| > |d| {
      assert s[|d|] == t[|d|] == post[0];
      DigitIsNotSpace(t[|d|]);
    }
    assert t == s[..|t|] == d;
  }

  /** `pid=` followed by a digit starts at `i`. */
  predicate PidFieldAt(line: string, i: int)
  {
    OccursAt(line, "pid=", i) && i + 4 < |line| && IsDigit(line[i + 4])
  }

  /** The leftmost place from `from` on where `pid=<digits>` matches. */
  function FirstPidField(line: string, from: nat): (r: Option<nat>)
    requires from <= |line|
    ensures r.Some? ==> from <= r.value < |line| && PidFieldAt(line, r.value)
    ensures r.Some? ==> forall k :: from <= k < r.value ==> !PidFieldAt(line, k)
    ensures r.None? ==> forall k :: from <= k < |line| ==> !PidFieldAt(line, k)
    decreases |line| - from
  {
    if from == |line| then None
    else if PidFieldAt(line, from) then Some(from)
    else FirstPidField(line, from + 1)
  }

  lemma {:induction false} FirstPidFieldAt(line: string, from: nat, i: nat)
    requires from <= i < |line| && PidFieldAt(line, i)
    requires forall k :: from <= k < i ==> !PidFieldAt(line, k)
    ensures FirstPidField(line, from) == Some(i)
    decreases i - from
  {
    if from < i {
      FirstPidFieldAt(line, from + 1, i);
    }
  }

  /**
   * `_extract_pid(line)`: the digits of the first `pid=<digits>`; failing
   * that, the line's last whitespace-separated word when it is all digits.
   */
  function ExtractedPid(line: string): (pid: Option<string>)
    ensures pid.Some? ==> IsDigitString(pid.value)
  {
    match FirstPidField(line, 0)
    case Some(i) =>
      var rest := line[i + 4..];
      Some(rest[..RunLength(rest, IsDigit)])
    case None =>
      var parts := SplitWhitespace(line);
      if parts != [] && IsDigitString(parts[|parts| - 1]) then Some(parts[|parts| - 1]) else None
  }

  /** No `pid=` straddles the end of a text that holds none into a `pid=` that follows it. */
  lemma NoPidFieldBefore(pre: string, post: string, k: nat)
    requires !Contains(pre, "pid=") && k < |pre|
    ensures !OccursAt(pre + "pid=" + post, "pid=", k)
  {
    var line := pre + "pid=" + post;
    if k + 4 <= |pre| {
      assert line[k..k + 4] == pre[k..k + 4];
      assert OccursAt(line, "pid=", k) ==> OccursAt(pre, "pid=", k);
    } else {
      assert line[|pre|] == 'p';
      if OccursAt(line, "pid=", k) {
        assert line[|pre|] == line[k..k + 4][|pre| - k];
      }
    }
  }

  /** The digits after the first `pid=` are the process identifier, as `ss -p` prints it. */
  lemma PidFieldWins(pre: string, n: nat, post: string)
    requires !Contains(pre, "pid=")
    requires post == [] || !IsDigit(post[0])
    ensures ExtractedPid(pre + "pid=" + NatToString(n) + post) == Some(NatToString(n))
  {
    var d := NatToString(n);
    var line := pre + "pid=" + d + post;
    assert line == pre + "pid=" + (d + post);
    assert line[|pre|..|pre| + 4] == "pid=";
    assert line[|pre| + 4] == d[0];
    forall k | 0 <= k < |pre|
      ensures !PidFieldAt(line, k)
    {
      NoPidFieldBefore(pre, d + post, k);
    }
    FirstPidFieldAt(line, 0, |pre|);
    var rest := line[|pre| + 4..];
    assert rest == d + post;
    assert RunLength(rest, IsDigit) == |d| by {
      DigitsRun(d, post);
    }
    assert rest[..|d|] == d;
  }

  /** A run of digits ends where a non-digit starts. */
  lemma {:induction false} DigitsRun(d: string, post: string)
    requires AllDigits(d)
    requires post == [] || !IsDigit(post[0])
    ensures RunLength(d + post, IsDigit) == |d|
    decreases |d|
  {
    if d != [] {
      assert (d + post)[1..] == d[1..] + post;
      DigitsRun(d[1..], post);
    } else {
      assert d + post == post;
    }
  }

  /** A `netstat -ano` line carries no `pid=`: its last word is the process identifier when it is a number. */
  lemma LastWordPid(line: string)
    requires forall k :: 0 <= k < |line| ==> !OccursAt(line, "pid=", k)
    ensures var words := SplitWhitespace(line);
      ExtractedPid(line) == if words != [] && IsDigitString(words[|words| - 1]) then Some(words[|words| - 1]) else None
  {
    assert FirstPidField(line, 0).None?;
  }

  // ---------------------------------------------------------------------------
  // The summary of a listing


  /** The Windows query for the process that owns a port. */
  function TaskQuery(pid: string): string
  {
    "tasklist /FI \"PID eq " + pid + "\""
  }

  /** The Linux query for the process that owns a port. */
  function ProcessQuery(pid: string): string
  {
    "bash -lc \"ps -p " + pid + " -o pid,cmd --no-headers\""
  }

  /** `(stdout + "\n" + stderr).strip()`. */
  function Combined(reply: Reply): string
  {
    Strip(reply.stdout + "\n" + reply.stderr)
  }

  /**
   * One matching line: the line itself, indented, then what the process
   * query printed when the line names a process and the query printed
   * anything; `n` commands were sent before.
   */
  function MatchReport(link: Link, n: nat, line: string, query: string -> string): (r: Report<string>)
    ensures |r.commands| <= 1
    ensures ExtractedPid(line).None? ==> r.commands == []
    ensures ExtractedPid(line).Some? ==> r.commands == [query(ExtractedPid(line).value)]
    ensures 1 <= |r.summary| <= 2 && r.summary[0] == "  " + Strip(line)
  {
    var shown := "  " + Strip(line);
    match ExtractedPid(line)
    case None => Report([shown], [])
    case Some(pid) =>
      var info := Combined(link.respond(n, query(pid)));
      Report([shown] + (if info != "" then ["    " + info] else []), [query(pid)])
  }

  /** Reporting one matching line, `n` commands having been sent before. */
  function MatchStep(link: Link, query: string -> string): (nat, string) -> Report<string>
  {
    (n: nat, line) => MatchReport(link, n, line, query)
  }

  /** The lines of every matching line, in order. */
  function MatchesReport(link: Link, n: nat, matches: seq<string>, query: string -> string): Report<string>
  {
    Fold(matches, n, MatchStep(link, query))
  }

  /** Some line of the listing holds `:port`. */
  predicate InUse(lines: seq<string>, port: int)
  {
    Filter(lines, Mentions(port)) != []
  }

  /** `Port p: free` or `Port p: IN USE`. */
  function PortHeader(port: int, inUse: bool): string
  {
    "Port " + IntToString(port) + (if inUse then ": IN USE" else ": free")
  }

  /** One port: its header, then the matching lines when there are any. */
  function PortReport(link: Link, n: nat, port: int, lines: seq<string>, query: string -> string): Report<string>
  {
    var matches := Filter(lines, Mentions(port));
    if matches == [] then Report([PortHeader(port, false)], [])
    else
      var r := MatchesReport(link, n, matches, query);
      Report([PortHeader(port, true)] + r.summary, r.commands)
  }

  /** Reporting one port against the listing, `n` commands having been sent before. */
  function PortStep(link: Link, lines: seq<string>, query: string -> string): (nat, int) -> Report<string>
  {
    (n: nat, port) => PortReport(link, n, port, lines, query)
  }

  /** The loop over the requested ports. */
  function PortsReport(link: Link, n: nat, ports: seq<int>, lines: seq<string>, query: string -> string): Report<string>
  {
    Fold(ports, n, PortStep(link, lines, query))
  }

  predicate IsPortLine(s: string)
  {
    StartsWith(s, "Port")
  }

  /** The header a port gets against a listing. */
  function HeaderIn(lines: seq<string>): int -> string
  {
    port => PortHeader(port, InUse(lines, port))
  }

  /** `all("free" in s.lower() for s in summary if s.startswith("Port"))`. */
  predicate AllFree(summary: seq<string>)
  {
    forall s :: s in summary && IsPortLine(s) ==> SaysFree(s)
  }

  predicate SaysFree(s: string)
  {
    Contains(Lower(s), "free")
  }

  function Status(summary: seq<string>): (r: string)
    ensures r == "Success" <==> AllFree(summary)
  {
    if AllFree(summary) then "Success" else "Failed"
  }

  lemma IndentedIsNoPortLine(s: string)
    requires |s| > 0 && s[0] == ' '
    ensures !IsPortLine(s)
  {
    if |s| >= 4 {
      assert s[..4][0] == ' ';
    }
  }

  lemma HeaderIsPortLine(port: int, inUse: bool)
    ensures IsPortLine(PortHeader(port, inUse))
  {
    var rest := IntToString(port) + (if inUse then ": IN USE" else ": free");
    PrefixOf("Port ", rest);
    assert PortHeader(port, inUse) == "Port " + rest;
  }

  lemma PrefixOf(a: string, b: string)
    ensures (a + b)[..|a|] == a
  {
  }

  predicate Indented(s: string)
  {
    |s| > 0 && s[0] == ' '
  }

  lemma SpacesFirst(pad: string, s: string)
    requires |pad| > 0 && pad[0] == ' '
    ensures Indented(pad + s)
  {
  }

  lemma MatchReportIndented(link: Link, n: nat, line: string, query: string -> string)
    ensures forall s :: s in MatchReport(link, n, line, query).summary ==> Indented(s)
  {
    var shown := "  " + Strip(line);
    SpacesFirst("  ", Strip(line));
    match ExtractedPid(line)
    case None =>
      assert MatchReport(link, n, line, query).summary == [shown];
    case Some(pid) =>
      var info := Combined(link.respond(n, query(pid)));
      SpacesFirst("    ", info);
      assert MatchReport(link, n, line, query).summary == [shown] + (if info != "" then ["    " + info] else []);
  }

  lemma MatchesIndented(link: Link, n: nat, matches: seq<string>, query: string -> string)
    ensures forall s :: s in MatchesReport(link, n, matches, query).summary ==> Indented(s)
  {
    forall m: nat, line | line in matches
      ensures forall s :: s in MatchStep(link, query)(m, line).summary ==> Indented(s)
    {
      MatchReportIndented(link, m, line, query);
    }
    FoldKeeps(matches, n, MatchStep(link, query), Indented);
  }

  /** A port's own lines hold exactly one header: its own. */
  lemma PortReportHeader(link: Link, n: nat, port: int, lines: seq<string>, query: string -> string)
    ensures Filter(PortReport(link, n, port, lines, query).summary, IsPortLine) == [HeaderIn(lines)(port)]
  {
    var h := PortHeader(port, InUse(lines, port));
    HeaderIsPortLine(port, InUse(lines, port));
    FilterSnoc([], h, IsPortLine);
    assert [] + [h] == [h];
    if InUse(lines, port) {
      var r := MatchesReport(link, n, Filter(lines, Mentions(port)), query);
      MatchesIndented(link, n, Filter(lines, Mentions(port)), query);
      forall s | s in r.summary
        ensures !IsPortLine(s)
      {
        IndentedIsNoPortLine(s);
      }
      FilterNone(r.summary, IsPortLine);
      FilterAppend([h], r.summary, IsPortLine);
    }
  }

  /** The summary holds one header per port, in the order of the ports, and no other line starting with "Port". */
  lemma SummaryHeaders(link: Link, n: nat, ports: seq<int>, lines: seq<string>, query: string -> string)
    ensures Filter(PortsReport(link, n, ports, lines, query).summary, IsPortLine) == Map(ports, HeaderIn(lines))
  {
    forall m: nat, port | port in ports
      ensures SelectsOne(PortStep(link, lines, query)(m, port), IsPortLine, HeaderIn(lines)(port))
    {
      PortReportHeader(link, m, port, lines, query);
    }
    FoldSelects(ports, n, PortStep(link, lines, query), IsPortLine, HeaderIn(lines));
  }

  /** A header mentions "free", in any case, exactly when its port is free. */
  lemma HeaderSaysFree(port: int, inUse: bool)
    ensures Contains(Lower(PortHeader(port, inUse)), "free") <==> !inUse
  {
    var t := IntToString(port);
    if inUse {
      IntToStringShape(port);
      var h := "Port " + t + ": IN USE";
      assert forall c :: c in h ==> c in "Port " || c in t || c in ": IN USE";
      LowerLacksFirst(h, "free");
    } else {
      assert Lower("free") == "free";
      LowerTailContained("Port " + t + ": ", "free");
      assert PortHeader(port, inUse) == "Port " + t + ": " + "free";
    }
  }

  /** Every header says "free" exactly when no requested port is named by any line of the listing. */
  lemma VerdictIffAllFree(link: Link, n: nat, ports: seq<int>, lines: seq<string>, query: string -> string)
    ensures AllFree(PortsReport(link, n, ports, lines, query).summary)
      <==> forall i :: 0 <= i < |ports| ==> !InUse(lines, ports[i])
  {
    var summary := PortsReport(link, n, ports, lines, query).summary;
    SummaryHeaders(link, n, ports, lines, query);
    FilterAll(summary, IsPortLine, SaysFree);
    MapAll(ports, HeaderIn(lines), SaysFree);
    forall i | 0 <= i < |ports|
      ensures SaysFree(HeaderIn(lines)(ports[i])) <==> !InUse(lines, ports[i])
    {
      HeaderSaysFree(ports[i], InUse(lines, ports[i]));
    }
  }


  // ---------------------------------------------------------------------------
  // The two listings

  /** The result dictionary and every command sent on the way to it. */
  datatype Outcome = Outcome(result: ToolResult, commands: seq<string>)

  const WindowsListing: string := "netstat -ano"
  const SsListing: string := "bash -lc \"ss -ltnp\""
  const NetstatListing: string := "bash -lc \"netstat -tulpn\""
  const LinuxCommand: string := "ss -ltnp | netstat -tulpn"

  /** `_failure(message, logs)`. */
  function FailureResult(message: string, logs: seq<string>): ToolResult
  {
    ToolResult(ToolName, "Failed", ToolName, message, Join("\n", logs))
  }

  /** The result of a completed inspection; the summary is appended to the log. */
  function Finished(summary: seq<string>, logs: seq<string>, command: string): ToolResult
  {
    ToolResult(ToolName, Status(summary), command, Join("\n", summary), Join("\n", logs + summary))
  }

  /** `(stdout + "\n" + stderr).splitlines()`, each line kept as printed. */
  function ListedLines(reply: Reply): seq<string>
  {
    SplitLines(reply.stdout + "\n" + reply.stderr)
  }

  /** `_check_windows`: one `netstat -ano`, then every port against its lines, querying `tasklist`. */
  function WindowsCheck(link: Link, n: nat, ports: seq<int>, logs: seq<string>): Outcome
  {
    Outcome(Finished(WindowsReport(link, n, ports).summary, logs, WindowsListing),
      [WindowsListing] + WindowsReport(link, n, ports).commands)
  }

  /** The Windows per-port report over the lines `netstat -ano` printed. */
  function WindowsReport(link: Link, n: nat, ports: seq<int>): Report<string>
  {
    PortsReport(link, n + 1, ports, ListedLines(link.respond(n, WindowsListing)), TaskQuery)
  }

  /** What the Linux listing printed, stripped, and the commands sent to get it. */
  datatype Listing = Listing(content: string, commands: seq<string>)

  /** `ss -ltnp`, or `netstat -tulpn` when `ss` printed nothing at all. */
  function LinuxListing(link: Link, n: nat): Listing
  {
    if Combined(link.respond(n, SsListing)) == "" then
      Listing(Combined(link.respond(n + 1, NetstatListing)), [SsListing, NetstatListing])
    else Listing(Combined(link.respond(n, SsListing)), [SsListing])
  }

  /** `_check_linux`: the listing, then every port against its lines, querying `ps`. */
  function LinuxCheck(link: Link, n: nat, ports: seq<int>, logs: seq<string>): Outcome
  {
    LinuxCheckOver(link, n, LinuxListing(link, n), ports, logs)
  }

  /** The Linux check once `l` is the listing. */
  function LinuxCheckOver(link: Link, n: nat, l: Listing, ports: seq<int>, logs: seq<string>): Outcome
  {
    var report := PortsReport(link, n + |l.commands|, ports, ListingLines(l), ProcessQuery);
    Outcome(Finished(report.summary, logs, LinuxCommand), l.commands + report.commands)
  }

  /** The Linux check over the listing `l`, once the listing is known to have been sent as the first `k` commands. */
  lemma LinuxCheckAt(link: Link, n: nat, l: Listing, ports: seq<int>, logs: seq<string>, k: nat)
    requires k == n + |l.commands|
    ensures LinuxCheckOver(link, n, l, ports, logs).result ==
      Finished(PortsReport(link, k, ports, ListingLines(l), ProcessQuery).summary, logs, LinuxCommand)
    ensures LinuxCheckOver(link, n, l, ports, logs).commands ==
      l.commands + PortsReport(link, k, ports, ListingLines(l), ProcessQuery).commands
  {
  }

  /** `content.splitlines()`. */
  function ListingLines(l: Listing): seq<string>
  {
    SplitLines(l.content)
  }

  /** A finished inspection reports "Success" exactly when no line names a requested port. */
  lemma ReportVerdict(link: Link, n: nat, ports: seq<int>, lines: seq<string>, query: string -> string, logs: seq<string>, command: string)
    ensures Finished(PortsReport(link, n, ports, lines, query).summary, logs, command).status == "Success"
      <==> forall i :: 0 <= i < |ports| ==> !InUse(lines, ports[i])
  {
    VerdictIffAllFree(link, n, ports, lines, query);
  }

  /** Windows: "Success" exactly when no line of the `netstat -ano` output names a requested port. */
  lemma WindowsVerdict(link: Link, n: nat, ports: seq<int>, logs: seq<string>)
    ensures WindowsCheck(link, n, ports, logs).result.status == "Success"
      <==> forall i :: 0 <= i < |ports| ==> !InUse(ListedLines(link.respond(n, WindowsListing)), ports[i])
  {
    ReportVerdict(link, n + 1, ports, ListedLines(link.respond(n, WindowsListing)), TaskQuery, logs, WindowsListing);
  }

  /** Linux: "Success" exactly when no line of the listing used names a requested port. */
  lemma LinuxVerdict(link: Link, n: nat, ports: seq<int>, logs: seq<string>)
    ensures LinuxCheck(link, n, ports, logs).result.status == "Success"
      <==> forall i :: 0 <= i < |ports| ==> !InUse(ListingLines(LinuxListing(link, n)), ports[i])
  {
    LinuxVerdictOver(link, n, LinuxListing(link, n), ports, logs);
  }

  lemma LinuxVerdictOver(link: Link, n: nat, l: Listing, ports: seq<int>, logs: seq<string>)
    ensures LinuxCheckOver(link, n, l, ports, logs).result.status == "Success"
      <==> forall i :: 0 <= i < |ports| ==> !InUse(ListingLines(l), ports[i])
  {
    ReportVerdict(link, n + |l.commands|, ports, ListingLines(l), ProcessQuery, logs, LinuxCommand);
  }

  /** The details list one header per requested port, in order, whatever the listing. */
  lemma WindowsDetails(link: Link, n: nat, ports: seq<int>, logs: seq<string>)
    ensures Filter(WindowsReport(link, n, ports).summary, IsPortLine) == Map(ports, HeaderIn(ListedLines(link.respond(n, WindowsListing))))
    ensures WindowsCheck(link, n, ports, logs).result.details == Join("\n", WindowsReport(link, n, ports).summary)
  {
    SummaryHeaders(link, n + 1, ports, ListedLines(link.respond(n, WindowsListing)), TaskQuery);
  }

  lemma ProcessQueryIsNoListing(pid: string)
    ensures ProcessQuery(pid) != NetstatListing
  {
    assert ProcessQuery(pid)[10] == 'p';
    assert NetstatListing[10] == 'n';
  }

  /** `ss` is always asked first; `netstat` is asked second exactly when `ss` printed nothing. */
  lemma NetstatOnlyWhenSsSilent(link: Link, n: nat, ports: seq<int>, logs: seq<string>)
    ensures LinuxCheck(link, n, ports, logs).commands[0] == SsListing
    ensures (|LinuxCheck(link, n, ports, logs).commands| >= 2 && LinuxCheck(link, n, ports, logs).commands[1] == NetstatListing)
      <==> Combined(link.respond(n, SsListing)) == ""
  {
    var l := LinuxListing(link, n);
    var r := PortsReport(link, n + |l.commands|, ports, ListingLines(l), ProcessQuery);
    var cmds := l.commands + r.commands;
    if Combined(link.respond(n, SsListing)) != "" && |cmds| >= 2 {
      assert cmds[1] == r.commands[0];
      ReportSendsNoListing(link, n + |l.commands|, ports, ListingLines(l));
      assert r.commands[0] in r.commands;
    }
  }

  predicate NotNetstat(c: string)
  {
    c != NetstatListing
  }

  /** No command the Linux report sends is the `netstat` listing. */
  lemma ReportSendsNoListing(link: Link, n: nat, ports: seq<int>, lines: seq<string>)
    ensures forall c :: c in PortsReport(link, n, ports, lines, ProcessQuery).commands ==> NotNetstat(c)
  {
    forall m: nat, port | port in ports
      ensures forall c :: c in PortStep(link, lines, ProcessQuery)(m, port).commands ==> NotNetstat(c)
    {
      forall k: nat, line | line in Filter(lines, Mentions(port))
        ensures forall c :: c in MatchStep(link, ProcessQuery)(k, line).commands ==> NotNetstat(c)
      {
        match ExtractedPid(line)
        case None =>
        case Some(pid) => ProcessQueryIsNoListing(pid);
      }
      FoldSends(Filter(lines, Mentions(port)), m, MatchStep(link, ProcessQuery), NotNetstat);
    }
    FoldSends(ports, n, PortStep(link, lines, ProcessQuery), NotNetstat);
  }

  // ---------------------------------------------------------------------------
  // The tool

  const UnsupportedMessage: string := "Unsupported operating system"

  /** `config.get(os_type, {})` when the configuration is a dictionary, else `{}`. */
  function OsConfig(config: Value, os: string): Value
  {
    if config.VDict? then GetOr(config.fields, os, VDict(map[])) else VDict(map[])
  }

  /** `ports if ports is not None else os_cfg.get("ports", [8080, 8005, 8009])`; `get` raises on a non-dictionary. */
  function RequestedPorts(osCfg: Value, ports: Value): (r: Result<Value>)
    ensures r.Failure? <==> ports.VNone? && !osCfg.VDict?
  {
    if !ports.VNone? then Success(ports)
    else if osCfg.VDict? then Success(GetOr(osCfg.fields, "ports", VList(DefaultPorts)))
    else Failure(NoGet(osCfg))
  }

  /** The sorted distinct ports to inspect, or the message of the exception raised on the way to them. */
  function InspectedPorts(osCfg: Value, ports: Value): Result<seq<int>>
  {
    match RequestedPorts(osCfg, ports)
    case Failure(e) => Failure(e)
    case Success(values) =>
      match PortItems(values)
      case None => Failure(NotIterable(values))
      case Some(items) => Success(NormalizedPorts(items))
  }

  /** The log the tool starts with. */
  function OsLog(os: string): seq<string>
  {
    ["Detected OS: " + os]
  }

  /** The commands of `o` after `pre`. */
  function After(pre: seq<string>, o: Outcome): Outcome
  {
    Outcome(o.result, pre + o.commands)
  }

  /** `run(executor, config, ports)` after the commands `sent`: detect the system, then inspect the ports on it. */
  function PortCheck(link: Link, sent: seq<string>, config: Value, ports: Value): Outcome
  {
    After(OsProbes(link, |sent|), CheckOn(link, sent + OsProbes(link, |sent|), DetectedOs(link, |sent|), config, ports))
  }

  /** Everything after the system is known to be `os`, the commands `sent` having gone out before. */
  function CheckOn(link: Link, sent: seq<string>, os: string, config: Value, ports: Value): Outcome
  {
    CheckInspected(link, sent, os, InspectedPorts(OsConfig(config, os), ports))
  }

  /** Everything after the ports to inspect on `os` have been worked out as `inspected`. */
  function CheckInspected(link: Link, sent: seq<string>, os: string, inspected: Result<seq<int>>): Outcome
  {
    match inspected
    case Failure(message) => Outcome(FailureResult(message, OsLog(os) + ["Exception: " + message]), [])
    case Success(list) =>
      if list == [] then Outcome(FailureResult(NoPortsMessage, OsLog(os)), [])
      else CheckListed(link, |sent|, os, list)
  }

  /** The check of the ports `list` on the system `os`, after `n` commands. */
  function CheckListed(link: Link, n: nat, os: string, list: seq<int>): Outcome
  {
    if os == "windows" then WindowsCheck(link, n, list, OsLog(os))
    else if os == "linux" then LinuxCheck(link, n, list, OsLog(os))
    else Outcome(FailureResult(UnsupportedMessage, OsLog(os)), [])
  }

  /** There are ports to inspect and a system the tool knows how to list. */
  predicate Listable(os: string, inspected: Result<seq<int>>)
  {
    (os == "windows" || os == "linux") && inspected.Success? && inspected.value != []
  }

  /**
   * A listing command goes out after the probes exactly when there are ports
   * to inspect on a known system; otherwise the tool fails without sending one.
   */
  lemma ListsOnlyWhenListable(link: Link, sent: seq<string>, os: string, config: Value, ports: Value)
    ensures CheckOn(link, sent, os, config, ports).commands != [] <==> Listable(os, InspectedPorts(OsConfig(config, os), ports))
    ensures !Listable(os, InspectedPorts(OsConfig(config, os), ports)) ==> CheckOn(link, sent, os, config, ports).result.status == "Failed"
  {
    var inspected := InspectedPorts(OsConfig(config, os), ports);
    if Listable(os, inspected) {
      if os == "windows" {
        assert WindowsCheck(link, |sent|, inspected.value, OsLog(os)).commands[0] == WindowsListing;
      } else {
        NetstatOnlyWhenSsSilent(link, |sent|, inspected.value, OsLog(os));
      }
    }
  }

  /** The whole run: the probes, then a listing only when there is something to list. */
  lemma RunListsOnlyWhenListable(link: Link, sent: seq<string>, config: Value, ports: Value)
    ensures PortCheck(link, sent, config, ports).commands[..|OsProbes(link, |sent|)|] == OsProbes(link, |sent|)
    ensures |PortCheck(link, sent, config, ports).commands| > |OsProbes(link, |sent|)|
      <==> Listable(DetectedOs(link, |sent|), InspectedPorts(OsConfig(config, DetectedOs(link, |sent|)), ports))
  {
    ListsOnlyWhenListable(link, sent + OsProbes(link, |sent|), DetectedOs(link, |sent|), config, ports);
  }

  /** Without ports from the caller or the configuration, the three Tomcat ports are inspected, in order. */
  lemma DefaultsWhenUnconfigured(config: Value, os: string)
    requires OsConfig(config, os).VDict? && "ports" !in OsConfig(config, os).fields
    ensures InspectedPorts(OsConfig(config, os), VNone) == Success([8005, 8009, 8080])
  {
    DefaultPortsSorted();
  }

  /** Ports from the caller override whatever the configuration says. */
  lemma CallerPortsWin(osCfg: Value, other: Value, ports: Value)
    requires !ports.VNone?
    ensures InspectedPorts(osCfg, ports) == InspectedPorts(other, ports)
  {
  }

  // ---------------------------------------------------------------------------
  // The tool over a connected executor

  /** One matching line: show it, and ask who owns the process it names. */
  method DescribeMatch(ex: Executor, line: string, query: string -> string) returns (added: seq<string>)
    requires ex.connected
    modifies ex`issued
    ensures added == MatchReport(ex.link, |old(ex.issued)|, line, query).summary
    ensures ex.issued == old(ex.issued) + MatchReport(ex.link, |old(ex.issued)|, line, query).commands
  {
    added := ["  " + Strip(line)];
    var pid := ExtractedPid(line);
    if pid.Some? {
      var out, err := ex.Run(query(pid.value));
      var info := Strip(out + "\n" + err);
      if info != "" {
        added := added + ["    " + info];
      }
    }
  }

  /** The loop over the lines that name a port. */
  method DescribeMatches(ex: Executor, matches: seq<string>, query: string -> string) returns (added: seq<string>)
    requires ex.connected
    modifies ex`issued
    ensures added == MatchesReport(ex.link, |old(ex.issued)|, matches, query).summary
    ensures ex.issued == old(ex.issued) + MatchesReport(ex.link, |old(ex.issued)|, matches, query).commands
  {
    var n := |ex.issued|;
    added := [];
    for j := 0 to |matches|
      invariant ex.connected
      invariant added == Fold(matches[..j], n, MatchStep(ex.link, query)).summary
      invariant ex.issued == old(ex.issued) + Fold(matches[..j], n, MatchStep(ex.link, query)).commands
    {
      ghost var k := |ex.issued|;
      var more := DescribeMatch(ex, matches[j], query);
      FoldNext(matches, j, n, MatchStep(ex.link, query), k);
      AppendAssoc(old(ex.issued), Fold(matches[..j], n, MatchStep(ex.link, query)).commands, MatchStep(ex.link, query)(k, matches[j]).commands);
      added := added + more;
    }
    assert matches[..|matches|] == matches;
  }

  /** One port: its header, then its matching lines. */
  method InspectPort(ex: Executor, port: int, lines: seq<string>, query: string -> string) returns (added: seq<string>)
    requires ex.connected
    modifies ex`issued
    ensures added == PortReport(ex.link, |old(ex.issued)|, port, lines, query).summary
    ensures ex.issued == old(ex.issued) + PortReport(ex.link, |old(ex.issued)|, port, lines, query).commands
  {
    var matches := Filter(lines, Mentions(port));
    if matches == [] {
      added := [PortHeader(port, false)];
    } else {
      var described := DescribeMatches(ex, matches, query);
      added := [PortHeader(port, true)] + described;
    }
  }

  /** The loop over the requested ports. */
  method InspectPorts(ex: Executor, ports: seq<int>, lines: seq<string>, query: string -> string) returns (summary: seq<string>)
    requires ex.connected
    modifies ex`issued
    ensures summary == PortsReport(ex.link, |old(ex.issued)|, ports, lines, query).summary
    ensures ex.issued == old(ex.issued) + PortsReport(ex.link, |old(ex.issued)|, ports, lines, query).commands
  {
    var n := |ex.issued|;
    summary := [];
    for j := 0 to |ports|
      invariant ex.connected
      invariant summary == Fold(ports[..j], n, PortStep(ex.link, lines, query)).summary
      invariant ex.issued == old(ex.issued) + Fold(ports[..j], n, PortStep(ex.link, lines, query)).commands
    {
      ghost var k := |ex.issued|;
      var more := InspectPort(ex, ports[j], lines, query);
      FoldNext(ports, j, n, PortStep(ex.link, lines, query), k);
      AppendAssoc(old(ex.issued), Fold(ports[..j], n, PortStep(ex.link, lines, query)).commands, PortStep(ex.link, lines, query)(k, ports[j]).commands);
      summary := summary + more;
    }
    assert ports[..|ports|] == ports;
  }

  /** `_check_windows`. */
  method CheckWindows(ex: Executor, ports: seq<int>, logs: seq<string>) returns (result: ToolResult)
    requires ex.connected
    modifies ex`issued
    ensures result == WindowsCheck(ex.link, |old(ex.issued)|, ports, logs).result
    ensures ex.issued == old(ex.issued) + WindowsCheck(ex.link, |old(ex.issued)|, ports, logs).commands
  {
    ghost var before := ex.issued;
    ghost var report := WindowsReport(ex.link, |before|, ports);
    var out, err := ex.Run(WindowsListing);
    var summary := InspectPorts(ex, ports, ListedLines(Reply(out, err)), TaskQuery);
    AppendAssoc(before, [WindowsListing], report.commands);
    result := Finished(summary, logs, WindowsListing);
  }

  /** The Linux listing: `ss`, then `netstat` when `ss` printed nothing. */
  method ListLinux(ex: Executor) returns (listing: Listing)
    requires ex.connected
    modifies ex`issued
    ensures listing == LinuxListing(ex.link, |old(ex.issued)|)
    ensures ex.issued == old(ex.issued) + listing.commands
  {
    var out, err := ex.Run(SsListing);
    listing := Listing(Combined(Reply(out, err)), [SsListing]);
    if listing.content == "" {
      out, err := ex.Run(NetstatListing);
      listing := Listing(Combined(Reply(out, err)), [SsListing, NetstatListing]);
    }
  }

  /** `_check_linux`. */
  method CheckLinux(ex: Executor, ports: seq<int>, logs: seq<string>) returns (result: ToolResult)
    requires ex.connected
    modifies ex`issued
    ensures result == LinuxCheck(ex.link, |old(ex.issued)|, ports, logs).result
    ensures ex.issued == old(ex.issued) + LinuxCheck(ex.link, |old(ex.issued)|, ports, logs).commands
  {
    ghost var before := ex.issued;
    var listing := ListLinux(ex);
    ghost var k := |ex.issued|;
    var summary := InspectPorts(ex, ports, ListingLines(listing), ProcessQuery);
    LinuxCheckAt(ex.link, |before|, listing, ports, logs, k);
    assert LinuxCheck(ex.link, |before|, ports, logs) == LinuxCheckOver(ex.link, |before|, listing, ports, logs);
    AppendAssoc(before, listing.commands, PortsReport(ex.link, k, ports, ListingLines(listing), ProcessQuery).commands);
    result := Finished(summary, logs, LinuxCommand);
  }

  /** `run(executor, config, ports)` on a connected executor. */
  method Run(ex: Executor, config: Value, ports: Value) returns (result: ToolResult)
    requires ex.connected
    modifies ex`issued
    ensures result == PortCheck(ex.link, old(ex.issued), config, ports).result
    ensures ex.issued == old(ex.issued) + PortCheck(ex.link, old(ex.issued), config, ports).commands
  {
    ghost var before := ex.issued;
    var os := ex.DetectOs();
    ghost var sent := ex.issued;
    result := CheckDetected(ex, os, config, ports);
    AppendAssoc(before, OsProbes(ex.link, |before|), CheckOn(ex.link, sent, os, config, ports).commands);
  }

  /** The body of `run` once the system is known to be `os`. */
  method CheckDetected(ex: Executor, os: string, config: Value, ports: Value) returns (result: ToolResult)
    requires ex.connected
    modifies ex`issued
    ensures result == CheckOn(ex.link, old(ex.issued), os, config, ports).result
    ensures ex.issued == old(ex.issued) + CheckOn(ex.link, old(ex.issued), os, config, ports).commands
  {
    var inspected := InspectedPorts(OsConfig(config, os), ports);
    result := CheckInspectedPorts(ex, os, inspected);
  }

  /** The body of `run` once the ports to inspect on `os` are known. */
  method CheckInspectedPorts(ex: Executor, os: string, inspected: Result<seq<int>>) returns (result: ToolResult)
    requires ex.connected
    modifies ex`issued
    ensures result == CheckInspected(ex.link, old(ex.issued), os, inspected).result
    ensures ex.issued == old(ex.issued) + CheckInspected(ex.link, old(ex.issued), os, inspected).commands
  {
    var logs := OsLog(os);
    if inspected.Failure? {
      result := FailureResult(inspected.error, logs + ["Exception: " + inspected.error]);
    } else if inspected.value == [] {
      result := FailureResult(NoPortsMessage, logs);
    } else {
      result := CheckPorts(ex, os, inspected.value);
    }
  }

  /** The branch of `run` on the detected system, once there are ports to inspect. */
  method CheckPorts(ex: Executor, os: string, list: seq<int>) returns (result: ToolResult)
    requires ex.connected
    modifies ex`issued
    ensures result == CheckListed(ex.link, |old(ex.issued)|, os, list).result
    ensures ex.issued == old(ex.issued) + CheckListed(ex.link, |old(ex.issued)|, os, list).commands
  {
    if os == "windows" {
      result := CheckWindows(ex, list, OsLog(os));
    } else if os == "linux" {
      result := CheckLinux(ex, list, OsLog(os));
    } else {
      result := FailureResult(UnsupportedMessage, OsLog(os));
    }
  }

}
