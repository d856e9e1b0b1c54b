/**
 * The dictionary the remote tools return: the tool's name, a status, the
 * command it reports, the details and the full output. The model keeps the
 * five keys as a record. Nearly every result has all five; the Java
 * installer's unknown-system and exception results have only the name, the
 * status and the details, and the record gives them an empty command and
 * output.
 */
module ToolResults {
  import opened Values

  datatype ToolResult = ToolResult(name: string, status: string, command: string, details: string, output: string)

  /** The record as the dictionary the tool hands back. */
  function ResultDict(r: ToolResult): (d: Dict)
    ensures d.Keys == {"name", "status", "command", "details", "output"}
    ensures Get(d, "status") == VStr(r.status) && Get(d, "details") == VStr(r.details)
  {
    map["name" := VStr(r.name), "status" := VStr(r.status), "command" := VStr(r.command),
        "details" := VStr(r.details), "output" := VStr(r.output)]
  }

  /** The two lines an installer logs around `detect_os()`. */
  function DetectLogs(os: string): seq<string>
  {
    ["Detecting remote operating system...", "\U{2714} Detected OS: " + os]
  }
}
