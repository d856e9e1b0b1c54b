/**
 * The SSH session every remote tool drives. The transport itself is not
 * modelled: what the far end answers is fixed up front by a `Link`, and the
 * executor records every command it sends, in order, in `issued`.
 */
module RemoteExecutor {
  import opened Wrappers
  import opened Text

  datatype Reply = Reply(stdout: string, stderr: string)

  /** What the tools log of a reply: stdout, then stderr marked as such, each stripped and only when not blank. */
  function ReplyLogs(r: Reply): seq<string>
  {
    (if IsBlank(r.stdout) then [] else [Strip(r.stdout)])
    + (if IsBlank(r.stderr) then [] else ["stderr: " + Strip(r.stderr)])
  }

  /**
   * The far end of one session: whether connecting fails (and why), what the
   * command sent in a given position prints, and whether a command sent with
   * a timeout in seconds raises `TimeoutError` instead (and with what message).
   */
  datatype Link = Link(
    connectError: Option<string>,
    respond: (nat, string) -> Reply,
    timesOut: (nat, string, real) -> Option<string>)

  /** What a command run under a timeout produced. */
  datatype Timed = Completed(reply: Reply) | TimedOut(message: string)

  const UnameProbe: string := "uname"
  const CaptionProbe: string := "powershell \"(Get-WmiObject Win32_OperatingSystem).Caption\""

  /** The commands `detect_os` sends when the session has already sent `n`. */
  function OsProbes(link: Link, n: nat): (probes: seq<string>)
    ensures 1 <= |probes| <= 2 && probes[0] == UnameProbe
  {
    if Contains(link.respond(n, UnameProbe).stdout, "Linux") then [UnameProbe]
    else [UnameProbe, CaptionProbe]
  }

  /** The operating system `detect_os` reports when the session has already sent `n` commands. */
  function DetectedOs(link: Link, n: nat): (os: string)
    ensures os == "linux" <==> Contains(link.respond(n, UnameProbe).stdout, "Linux")
    ensures os == "windows" <==>
      !Contains(link.respond(n, UnameProbe).stdout, "Linux") && !IsBlank(link.respond(n + 1, CaptionProbe).stdout)
    ensures os == "unknown" <==>
      !Contains(link.respond(n, UnameProbe).stdout, "Linux") && IsBlank(link.respond(n + 1, CaptionProbe).stdout)
  {
    if Contains(link.respond(n, UnameProbe).stdout, "Linux") then "linux"
    else if !IsBlank(link.respond(n + 1, CaptionProbe).stdout) then "windows"
    else "unknown"
  }

  class Executor {
    const host: string
    const username: string
    const password: Option<string>
    const keyPath: Option<string>
    const link: Link
    /** Every command sent so far, oldest first. */
    var issued: seq<string>
    var connected: bool
    var closed: bool

    constructor (host: string, username: string, password: Option<string>, keyPath: Option<string>, link: Link)
      ensures this.host == host && this.username == username
      ensures this.password == password && this.keyPath == keyPath && this.link == link
      ensures issued == [] && !connected && !closed
    {
      this.host := host;
      this.username := username;
      this.password := password;
      this.keyPath := keyPath;
      this.link := link;
      issued := [];
      connected := false;
      closed := false;
    }

    /** `connect()`: opens the session, or reports why it could not. */
    method Connect() returns (error: Option<string>)
      modifies this`connected
      ensures error == link.connectError
      ensures connected <==> error.None?
    {
      error := link.connectError;
      connected := error.None?;
    }

    /** `run(command)`: sends one command and returns what it printed. */
    method Run(command: string) returns (stdout: string, stderr: string)
      requires connected
      modifies this`issued
      ensures issued == old(issued) + [command]
      ensures Reply(stdout, stderr) == link.respond(|old(issued)|, command)
    {
      var reply := link.respond(|issued|, command);
      issued := issued + [command];
      stdout, stderr := reply.stdout, reply.stderr;
    }

    /** Sends one command that must finish within `timeout` seconds. */
    method RunTimed(command: string, timeout: real) returns (outcome: Timed)
      requires connected
      modifies this`issued
      ensures issued == old(issued) + [command]
      ensures outcome == match link.timesOut(|old(issued)|, command, timeout)
        case Some(message) => TimedOut(message)
        case None => Completed(link.respond(|old(issued)|, command))
    {
      var n := |issued|;
      issued := issued + [command];
      match link.timesOut(n, command, timeout) {
        case Some(message) => outcome := TimedOut(message);
        case None => outcome := Completed(link.respond(n, command));
      }
    }

    /** `detect_os()`: asks `uname`, then the Windows caption, and names the system. */
    method DetectOs() returns (os: string)
      requires connected
      modifies this`issued
      ensures issued == old(issued) + OsProbes(link, |old(issued)|)
      ensures os == DetectedOs(link, |old(issued)|)
    {
      var unameOut, _ := Run(UnameProbe);
      if Contains(unameOut, "Linux") {
        return "linux";
      }
      var captionOut, _ := Run(CaptionProbe);
      if !IsBlank(captionOut) {
        return "windows";
      }
      return "unknown";
    }

    /** `close()`. */
    method Close()
      modifies this`connected, this`closed
      ensures closed && !connected
    {
      connected := false;
      closed := true;
    }
  }
}
