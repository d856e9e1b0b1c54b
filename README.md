# Remote Tomcat provisioning and chat routing, modelled in Dafny

AgenticAiBot4Tomcat provisions Java and Apache Tomcat on remote hosts over SSH. Each
"tool" does one step: it checks disk, RAM, ports or Java; downloads or extracts an
archive; installs or uninstalls Java or Tomcat; or starts or stops Tomcat. A workflow
runner chains the tools for each server of an INI inventory. A chatbot turns
natural-language requests into tool plans and asks which servers to target when a
request names none.

This project models the deterministic layer under that glue. The remote shell is an
oracle. `RemoteExecutor.Link` answers every command as a pure function of its position
in the session and its text. The `RemoteExecutor.Executor` class records every command it
is given. So each tool's contract can say which commands were issued, in which order,
and which status, details and logs came back. The language model of the chatbot is an
oracle too (`ChatBot.Oracle`). Python dictionaries are `map<string, Value>`, where
`Values.Value` is a JSON-like datatype. Regular expressions are explicit
character-level predicates, with ASCII word characters.

One module models each core source file:

- `ChatBot`, `ChatRouting`, `ChatToolAdapter`: RemoteAgent/chatbot.py.
- `ConfigLoader`: Remote/utilities/config_loader.py.
- `DynamicAdapter`: RemoteAgent/dynamic_adapter.py.
- `RemoteChatbot`: Remote/remote_chatbot.py.
- `WorkflowTool`: Tools/remote_workflow_tool.py.
- `WorkflowRunner`: Remote/run_remote_workflow.py.
- `RemotePortCheck`, `RemoteDiskCheck`, `RemoteRamCheck`: the pre-install checks.
- `CheckPorts`, `CheckJava`: the local prerequisite checks.
- `RemoteDownload`, `RemoteExtract`, `RemoteJavaInstall`: the utilities and the Java installer.
- `RemoteTomcatInstall`, `RemoteTomcatUninstall`: the Tomcat installer and uninstaller.
- `TomcatStart`, `TomcatStop`: the post-install tools.
- `InventoryTool`: RemoteAgent/inventory_tool.py.

Shared modules:

- `Wrappers`: `Option` and `Result`.
- `Text`: Python's `str` operations on ASCII.
- `Values`: truthiness, `str()`, `int()` and `float()`.
- `PyFormat`: Python's `str.format` with one keyword argument, as the tools call it.
- `Sequences`: de-duplication, filtering, first match and folds.
- `PosixShell`: `shlex.quote`, and a reader for the POSIX shell words it produces.
- `PowerShellQuoting`: PowerShell verbatim string literals.
- `RemoteExecutor`: the SSH executor.
- `ToolResults`: the common result record.

Operations that work step by step are methods. Each method is proved equal to a
specification function. Lemmas state the properties of those functions.

## Model

| member | source | states |
|---|---|---|
| ChatBot.Bounded | RemoteAgent/chatbot.py:575-581 | the history after trimming holds at most 12 messages, and they are the newest ones, in order |
| ChatBot.AppendKeepsNewest | RemoteAgent/chatbot.py:575-581 | after an append, the new message is last and the others are the newest of the old history, in order |
| ChatBot.Reset | RemoteAgent/chatbot.py:534-540 | clears the waiting flag, the pending request, the presented servers and the attempt counter; keeps the history; makes a non-empty selection the active servers and otherwise keeps them |
| ChatBot.BlankInputChangesNothing | RemoteAgent/chatbot.py:107-109 | blank input gets the fixed prompt and leaves the whole session state unchanged |
| ChatBot.AmbiguousRequestAsks | RemoteAgent/chatbot.py:140-154 | with several servers and none named or active, the bot starts waiting for a choice: it remembers the request and the servers offered and sets the attempt counter to 0 |
| ChatBot.FailedReplyCounts | RemoteAgent/chatbot.py:123-138 | a reply that selects nothing, below the limit, counts one more attempt and keeps waiting with the same request and options |
| ChatBot.RetryCounts | RemoteAgent/chatbot.py:456-470 | a retry below the limit changes only the attempt counter, which goes up by one, and the history |
| ChatBot.LastFailedReplyGivesUp | RemoteAgent/chatbot.py:456-465 | the failed reply that reaches 3 attempts gives the give-up message and clears the whole sub-dialogue, so the counter is back at 0 |
| ChatBot.SelectionRunsPending | RemoteAgent/chatbot.py:123-135 | a reply that selects servers runs the pending request (or the reply itself) on them, makes them the active servers and ends the sub-dialogue |
| ChatBot.ChatStepValid | RemoteAgent/chatbot.py:104-164 | every turn keeps the session invariant: at most 12 messages, and the waiting flag, pending request and presented servers set together |
| ChatBot.RemoteWorkflowChatBot.AppendHistory | RemoteAgent/chatbot.py:575-581 | the history field becomes the bounded history with the message appended |
| ChatBot.RemoteWorkflowChatBot.ResetSelectionState | RemoteAgent/chatbot.py:534-540 | the object's fields become the reset state |
| ChatBot.RemoteWorkflowChatBot.PlanAndExecute | RemoteAgent/chatbot.py:166-186 | the reply is the model's summary for the request and the selection, and the selection becomes the active servers |
| ChatBot.RemoteWorkflowChatBot.ExecuteSelection | RemoteAgent/chatbot.py:127-163 | running a request on a selection gives the reply and the new fields of the execution step: the summary is appended to the history and the selection becomes active |
| ChatBot.RemoteWorkflowChatBot.HandleSelectionRetry | RemoteAgent/chatbot.py:456-470 | the reply and the new fields are those of the retry step |
| ChatBot.RemoteWorkflowChatBot.ReplyToChoice | RemoteAgent/chatbot.py:123-138 | the reply to a server choice and the new fields are those of the choice step |
| ChatBot.RemoteWorkflowChatBot.RouteRequest | RemoteAgent/chatbot.py:140-164 | routing a new request gives the reply and fields of the routing step |
| ChatBot.RemoteWorkflowChatBot.ChooseServers | RemoteAgent/chatbot.py:140-142 | the servers named in the request, else the active servers that are still listed |
| ChatBot.RemoteWorkflowChatBot.RouteSelected | RemoteAgent/chatbot.py:143-164 | runs the chosen servers, else the only server, else asks and starts waiting |
| ChatBot.RemoteWorkflowChatBot.Chat | RemoteAgent/chatbot.py:104-164 | one call of `chat` gives the reply and the new fields of one turn of the session |
| ChatBot.PostProcessResult | RemoteAgent/chatbot.py:271-285 | a failed stop result whose string details mention connection refused, not running, not listening or already stopped becomes Skipped, and nothing else changes; every other result comes back unchanged; the one error is a failed stop whose details are set and not a string |
| ChatBot.DefaultPlan | RemoteAgent/chatbot.py:314-323 | the plan always has a non-empty task list, and it is the fallback plan exactly when the keyword plan is None |
| ChatRouting.KeywordMatchIsSubstring | RemoteAgent/chatbot.py:350-357 | a keyword that matches, whole-word or not, occurs in the text as a substring once stripped and lower-cased |
| ChatRouting.UninstallIsNotInstall | RemoteAgent/chatbot.py:354-356 | the word-boundary rule: "uninstall" does not fire the `install` keyword |
| ChatRouting.MatchedRowToolsExact | RemoteAgent/chatbot.py:336-339 | a tool is listed exactly when some row that fires names it |
| ChatRouting.MatchedTools | RemoteAgent/chatbot.py:330-342 | the planned tools are pairwise distinct |
| ChatRouting.MatchedToolsExact | RemoteAgent/chatbot.py:38-63 | a tool is planned exactly when a row of the keyword table naming it has a matching keyword |
| ChatRouting.KeywordTasks | RemoteAgent/chatbot.py:344-347 | one task per planned tool, in order, each with server "all" and empty parameters |
| ChatRouting.KeywordPlanOf | RemoteAgent/chatbot.py:325-348 | None for empty text; a plan only when some tool matched; None when text is non-empty and nothing matched |
| ChatRouting.CollectTools | RemoteAgent/chatbot.py:336-339 | the loop gives the tools of the matching rows in table order of first appearance, without repeats |
| ChatRouting.AddNewTools | RemoteAgent/chatbot.py:332-334 | appending each tool not yet planned keeps the plan equal to the de-duplicated tool list |
| ChatRouting.KeywordPlan | RemoteAgent/chatbot.py:325-348 | the method gives the keyword plan of the request |
| ChatRouting.ServerIdentifier | RemoteAgent/chatbot.py:547-550 | the identifier is never blank: the name if non-blank, else the host if non-blank, else "unknown" |
| ChatRouting.ServerIdentifiers | RemoteAgent/chatbot.py:552-560 | the identifiers are exactly the non-blank ones of the lower-cased name and host, the name first, at most two and distinct |
| ChatRouting.FirstIdentifierMatching | RemoteAgent/chatbot.py:308-311 | the first identifier equal to the token ignoring case; None exactly when no identifier is |
| ChatRouting.DescriptorTokens | RemoteAgent/chatbot.py:299-304 | every token is non-blank and already stripped |
| ChatRouting.TokenTargets | RemoteAgent/chatbot.py:306-311 | a target is exactly the first identifier matching some token; every target is an identifier, at most one per token |
| ChatRouting.TaskTargets | RemoteAgent/chatbot.py:287-312 | a missing descriptor, "all" or "*", or a descriptor that is neither string nor list, yields every identifier; otherwise the tokens' targets, or every identifier when no token matches |
| ChatRouting.TokenSelectsIdentifier | RemoteAgent/chatbot.py:306-311 | a token equal to an identifier ignoring case makes the first such identifier a target |
| ChatRouting.TargetNamedByToken | RemoteAgent/chatbot.py:306-311 | every target that is not the fall-back is named by some token, ignoring case |
| ChatRouting.ResolveTaskTargets | RemoteAgent/chatbot.py:287-312 | the loop gives the targets of the descriptor |
| ChatRouting.CollectTargets | RemoteAgent/chatbot.py:306-311 | each token adds the first identifier it names |
| ChatRouting.FindIdentifier | RemoteAgent/chatbot.py:308-311 | the inner loop finds the first identifier matching the token |
| ChatRouting.IndexMatches | RemoteAgent/chatbot.py:508-511 | a server is picked exactly when some number is in range and numbers it, so out-of-range numbers pick nothing |
| ChatRouting.FirstNamed | RemoteAgent/chatbot.py:514-519 | the first server one of whose identifiers the token equals; None exactly when none does |
| ChatRouting.TokenMatches | RemoteAgent/chatbot.py:513-519 | a server is picked exactly when it is the first server some token names; at most one per token |
| ChatRouting.SelectionOf | RemoteAgent/chatbot.py:496-526 | empty for no servers or blank text; every server when an "all" word appears; otherwise only listed servers with pairwise distinct identifiers |
| ChatRouting.MentionsOnlyAsFallback | RemoteAgent/chatbot.py:521-526 | mentions are used only when no number or exact name matched: then the selection is the de-duplicated direct matches |
| ChatRouting.NumberPicksServer | RemoteAgent/chatbot.py:508-511 | a reply holding a listed number n selects server n, or one with the same identifier |
| ChatRouting.TokenPicksServer | RemoteAgent/chatbot.py:513-519 | a reply word equal to the name or host of a listed server selects the first server it names, or one with the same identifier |
| ChatRouting.PickByNumber | RemoteAgent/chatbot.py:508-511 | the loop over digit runs picks the servers the numbers in range name |
| ChatRouting.PickByToken | RemoteAgent/chatbot.py:513-519 | the token loop picks, for each token, the first server it names |
| ChatRouting.ParseServerSelection | RemoteAgent/chatbot.py:496-526 | the method gives the selection of the reply |
| ChatRouting.DetectedServers | RemoteAgent/chatbot.py:482-494 | every server when an "all" word appears; otherwise only listed servers that the text mentions |
| ChatRouting.MentionedIsDetected | RemoteAgent/chatbot.py:489-494 | a server the text mentions is detected, or one with the same identifier is |
| ChatRouting.DetectServersInText | RemoteAgent/chatbot.py:482-494 | the method gives the detected servers |
| ChatRouting.ActiveMatches | RemoteAgent/chatbot.py:528-532 | empty with no active servers; otherwise exactly the listed servers whose identifier is among the active ones |
| Sequences.DedupeBy | RemoteAgent/chatbot.py:565-573 | the result is drawn from the input and its identifiers are pairwise distinct |
| Sequences.DedupeIsFirstOccurrences | RemoteAgent/chatbot.py:565-573 | the left-to-right walk keeps exactly the elements no earlier element shares an identifier with |
| Sequences.DedupeKeepsEveryKey | RemoteAgent/chatbot.py:565-573 | no identifier is lost |
| Sequences.Dedupe | RemoteAgent/chatbot.py:565-573 | the loop with a set of seen identifiers gives the de-duplicated sequence |
| ChatToolAdapter.SelectedServer | RemoteAgent/chatbot.py:747-756 | None exactly when no record's stripped, lower-cased name or host equals the identifier's; otherwise a listed record that it names |
| ChatToolAdapter.EarliestNamedWins | RemoteAgent/chatbot.py:751-755 | among several records that match, the earliest wins |
| ChatToolAdapter.BlankIdentifierPicksUnnamed | RemoteAgent/chatbot.py:750-754 | a blank identifier selects a record that has no name, because both normalise to the empty string |
| ChatToolAdapter.SelectServer | RemoteAgent/chatbot.py:747-756 | the loop gives the selected server |
| ChatToolAdapter.NonBlankText | RemoteAgent/chatbot.py:734-735 | defined exactly for non-blank strings, and gives them stripped |
| ChatToolAdapter.DefaultTomcatHome | RemoteAgent/chatbot.py:730-745 | any home found is non-blank and stripped |
| ChatToolAdapter.DefaultHomeFromSections | RemoteAgent/chatbot.py:730-745 | the lookup takes `post_install.default_tomcat_home` first, then `install.tomcat.windows.install_root`, as the configuration walk would find them |
| ConfigLoader.DeepMerge | Remote/utilities/config_loader.py:47-58 | the keys are those of both; keys only in the base keep their values; an override wins unless both values are dictionaries, which are merged key by key |
| ConfigLoader.MergeEmptyOverrides | Remote/utilities/config_loader.py:47-58 | merging nothing in changes nothing |
| ConfigLoader.MergeIntoEmpty | Remote/utilities/config_loader.py:47-58 | merging into an empty base gives the overrides back |
| ConfigLoader.MergeSelf | Remote/utilities/config_loader.py:47-58 | a dictionary merged with itself is unchanged at every depth |
| ConfigLoader.MergeTwice | Remote/utilities/config_loader.py:47-58 | applying the same override layer twice is the same as applying it once |
| ConfigLoader.MergeAllSnoc | Remote/utilities/config_loader.py:40-44 | the last layer is merged over all the earlier ones, so later layers win |
| ConfigLoader.MergeDict | Remote/utilities/config_loader.py:40-44 | the loop gives the layers merged in order; no layers gives the base; the result has every key of the last layer |
| ConfigLoader.Overlay | Remote/utilities/config_loader.py:28-30 | a section's own values win over the defaults; other default values are kept; `name` is always present and defaults to the section name |
| ConfigLoader.MissingFields | Remote/utilities/config_loader.py:31-32 | host is listed exactly when it is missing or empty, and the same for username |
| ConfigLoader.Records | Remote/utilities/config_loader.py:24-37 | on success every record has a host and a username, and there is at most one record per section |
| ConfigLoader.ServerSections | Remote/utilities/config_loader.py:25-27 | every kept section is from the file and is not the defaults section |
| ConfigLoader.RecordsAreOverlays | Remote/utilities/config_loader.py:24-37 | on success the records are the overlays of the server sections, one each, in file order |
| ConfigLoader.RecordsFailIffIncomplete | Remote/utilities/config_loader.py:31-34 | loading fails exactly when some server section lacks a host or username |
| ConfigLoader.LoadServerIni | Remote/utilities/config_loader.py:15-37 | the loop over sections gives the records, or the error for the first incomplete section |
| DynamicAdapter.SelectedServer | RemoteAgent/dynamic_adapter.py:218-235 | a listed record; without both overrides, one that the non-blank identifier names; None exactly when the identifier names no record and, with both overrides, no record has the override's host |
| DynamicAdapter.IdentifierWins | RemoteAgent/dynamic_adapter.py:224-229 | a non-blank identifier selects the first record it names, ahead of the host override |
| DynamicAdapter.HostFallback | RemoteAgent/dynamic_adapter.py:230-235 | with no record named by the identifier and both overrides given, the first record whose lower-cased host is the stripped, lower-cased host override is selected |
| DynamicAdapter.SelectServer | RemoteAgent/dynamic_adapter.py:218-235 | the two loops give the selected server |
| DynamicAdapter.Overlaid | RemoteAgent/dynamic_adapter.py:112-119 | a truthy host or username override replaces the record's value, and a password or key path override that is not None does too; every other key, and each key whose override is absent, keeps its value; no key is added except by an override |
| DynamicAdapter.ConnectionTarget | RemoteAgent/dynamic_adapter.py:99-122 | a record that is returned always has a host and a username |
| DynamicAdapter.FallbackRecord | RemoteAgent/dynamic_adapter.py:100-106 | with no matching record, a truthy host and username still connect, to a record named after the host |
| DynamicAdapter.NoRecordNoOverrides | RemoteAgent/dynamic_adapter.py:107-110 | with no matching record and not both overrides, the result is the server-not-found failure |
| DynamicAdapter.ApplyOverrides | RemoteAgent/dynamic_adapter.py:112-119 | the field assignments give the overlaid record |
| DynamicAdapter.PrepareServer | RemoteAgent/dynamic_adapter.py:99-122 | the method gives the connection record or the failure |
| DynamicAdapter.ResolveOneMore | RemoteAgent/dynamic_adapter.py:238-244 | one more key looks it up in the section found so far; a missing or non-dictionary step counts as an empty dictionary |
| DynamicAdapter.ResolveNested | RemoteAgent/dynamic_adapter.py:238-244 | resolving the path a section was nested under finds that section |
| DynamicAdapter.ResolveConfig | RemoteAgent/dynamic_adapter.py:238-244 | the cursor loop gives the resolved configuration |
| DynamicAdapter.CoerceValue | RemoteAgent/dynamic_adapter.py:247-264 | with no primitive target the value is unchanged; a bool target always gives a bool |
| DynamicAdapter.CoerceIdempotent | RemoteAgent/dynamic_adapter.py:247-264 | coercing a coerced value again changes nothing |
| DynamicAdapter.CoerceBoolReadsBack | RemoteAgent/dynamic_adapter.py:252-261 | a bool written out by `str()` reads back as the same bool |
| DynamicAdapter.CoerceIntReadsBack | RemoteAgent/dynamic_adapter.py:262 | an integer written out by `str()` reads back as the same integer |
| DynamicAdapter.CoerceLike | RemoteAgent/dynamic_adapter.py:286-295 | a bool reference gives a bool; an int reference an int or the value unchanged; a float reference a float or the value unchanged; a string reference gives `str(value)` |
| DynamicAdapter.CoerceLikeIsCoerceValue | RemoteAgent/dynamic_adapter.py:286-295 | coercing like a reference is coercing to the reference's own type |
| DynamicAdapter.CoerceLikeKeepsSameType | RemoteAgent/dynamic_adapter.py:286-295 | a value already of the reference's type is kept |
| DynamicAdapter.Remaining | RemoteAgent/dynamic_adapter.py:161-193 | the leftover parameters are exactly the given ones other than the connection keys and the signature's parameters that are not injected, with their values unchanged |
| DynamicAdapter.FoldLeftovers | RemoteAgent/dynamic_adapter.py:195-201 | the configuration gains every leftover key, and keys not among the leftovers keep their values |
| DynamicAdapter.LeftoverTyping | RemoteAgent/dynamic_adapter.py:196-201 | a leftover whose configured value is a string is stored as its `str()`; one with no configured value is stored raw |
| DynamicAdapter.WriteLeftovers | RemoteAgent/dynamic_adapter.py:195-201 | the loop gives the folded configuration in whatever order the keys are visited |
| DynamicAdapter.FailureResult | RemoteAgent/dynamic_adapter.py:205-211 | status Failed, and the message as details |
| DynamicAdapter.Run | RemoteAgent/dynamic_adapter.py:76-148 | a settings or inventory load error, a missing server, or a missing host or username fails before any connection; otherwise the result is the connection's, the binding's ValueError, or the tool's outcome named after its target; a session that connected is closed at the end |
| DynamicAdapter.RunOnServers | RemoteAgent/dynamic_adapter.py:93-148 | once the inventory is loaded: the connection record's failure, or the connected result built from the resolved configuration and the whole signature |
| DynamicAdapter.Connect | RemoteAgent/dynamic_adapter.py:127-148 | a connection error fails with `Unable to connect to`; a parameter that cannot be bound fails with `Execution error` and its ValueError; otherwise the tool runs on the configuration with the leftovers written in, and its result gets `target_server`; the session is closed whatever the tool did |
| DynamicAdapter.Binds | RemoteAgent/dynamic_adapter.py:165-193 | an injected or required parameter that binds is passed, and only a required, non-injected parameter can raise |
| DynamicAdapter.PassedNames | RemoteAgent/dynamic_adapter.py:165-193 | only visited names are passed, and every visited parameter that is required or injected is passed, unless a ValueError ends the loop |
| DynamicAdapter.BindParameters | RemoteAgent/dynamic_adapter.py:165-193 | the loop over the visited parameters passes the names PassedNames gives, or stops at its ValueError |
| DynamicAdapter.FirstUnpassed | RemoteAgent/dynamic_adapter.py:141 | None exactly when every required parameter of the signature is passed; otherwise a required name that is not passed, the first parameter's when that one is missing |
| DynamicAdapter.AsWrittenCallFails | RemoteAgent/dynamic_adapter.py:165 | as written, a signature whose first parameter is required always fails the call, with the TypeError for that parameter whenever the others bind |
| DynamicAdapter.AsWrittenExecutionError | RemoteAgent/dynamic_adapter.py:139-146 | as written, a tool whose `run` starts with `executor` gives `Execution error` every time it connects, whatever the tool would do |
| DynamicAdapter.FullSignatureBinds | RemoteAgent/dynamic_adapter.py:165-193 | visiting the whole signature, the call never lacks a required parameter and passes every injected one, so it fails only with the binding's ValueError |
| RemoteChatbot.ParsedPorts | Remote/remote_chatbot.py:206-213 | every port kept is what `int()` reads from one of the candidates |
| RemoteChatbot.AllInts | Remote/remote_chatbot.py:214-217 | on success, one integer per item, each what `int()` reads from it; None exactly when some item does not convert |
| RemoteChatbot.NormalizedPortOverride | Remote/remote_chatbot.py:202-217 | None stays None; a string that gives a list gives a non-empty one |
| RemoteChatbot.PortListReadsBack | Remote/remote_chatbot.py:205-213 | a non-empty port list written as comma-separated numbers reads back as the same list |
| RemoteChatbot.ParsePortList | Remote/remote_chatbot.py:207-213 | the loop keeps every candidate that parses, in order |
| RemoteChatbot.NormalizePortOverride | Remote/remote_chatbot.py:202-217 | the method gives the normalised override |
| RemoteChatbot.ResolveTomcatHome | Remote/remote_chatbot.py:283-300 | fails exactly when the home is required and no candidate is truthy; otherwise gives the candidate |
| RemoteChatbot.TomcatHomePrecedence | Remote/remote_chatbot.py:290-294 | the parameter wins when truthy, then the section's `tomcat_home`, then its `default_tomcat_home` |
| RemoteChatbot.TrailEndsAtWalk | Remote/remote_chatbot.py:134-143 | the walk that records ancestors ends where the plain configuration walk ends |
| RemoteChatbot.NearestHome | Remote/remote_chatbot.py:146-151 | None exactly when no ancestor defines a default Tomcat home |
| RemoteChatbot.ExtractedIsResolvedPlusHome | Remote/remote_chatbot.py:133-153 | the extracted section keeps every entry of the resolved section and adds at most the default home |
| RemoteChatbot.InheritsNearestHome | Remote/remote_chatbot.py:146-151 | a section without its own default home gets one when an enclosing level defines it |
| RemoteChatbot.PostInstallHomeInherited | Remote/remote_chatbot.py:146-151 | a `tomcat_start` section under a `post_install` level with a default home inherits that home |
| RemoteChatbot.ExtractConfig | Remote/remote_chatbot.py:133-153 | the method gives the extracted section |
| RemoteChatbot.FollowPath | Remote/remote_chatbot.py:134-143 | the cursor loop records each dictionary it leaves |
| RemoteChatbot.InheritHome | Remote/remote_chatbot.py:145-153 | the backward search takes the innermost ancestor's default home |
| RemoteChatbot.OverriddenEntries | Remote/remote_chatbot.py:330-333 | each of the keys the parameters set, not to None, takes the parameter's value; every other entry is kept |
| RemoteChatbot.EffectiveValidationConfig | Remote/remote_chatbot.py:330-333 | the loop over `port`, `host_template` and `wait_seconds` gives the overridden section |
| RemoteChatbot.SelectedServer | Remote/remote_chatbot.py:155-174 | a listed record; the first one named or hosted at the identifier when there is one |
| RemoteChatbot.AgreesWithDynamicAdapter | Remote/remote_chatbot.py:162-167 | on a non-blank identifier both adapters select the same record |
| RemoteChatbot.SelectServer | Remote/remote_chatbot.py:155-174 | the two loops give the selected server |
| RemoteChatbot.ConnectionTarget | Remote/remote_chatbot.py:85-108 | a returned record has a host and a username, and a truthy host or username override replaces the record's value |
| RemoteChatbot.FallbackNamedAfterServer | Remote/remote_chatbot.py:86-92 | with no match but a truthy host and username, the fallback record is named after the server argument, or after the host when that is empty |
| RemoteChatbot.StartRecord | Remote/remote_chatbot.py:85-96 | the method gives the selected record or the fallback |
| RemoteChatbot.PrepareServer | Remote/remote_chatbot.py:85-108 | the method gives the connection record or the failure |
| WorkflowTool.TargetSet | Tools/remote_workflow_tool.py:11-19 | no targets for None |
| WorkflowTool.TargetsTrimmed | Tools/remote_workflow_tool.py:11-19 | every target is non-empty and has no surrounding whitespace |
| WorkflowTool.CommaListReadsBack | Tools/remote_workflow_tool.py:14-16 | trimmed names without commas, joined by commas, read back as the same names |
| WorkflowTool.NameListReadsBack | Tools/remote_workflow_tool.py:17-18 | a list of trimmed names reads back as the same names |
| WorkflowTool.NameSelects | Tools/remote_workflow_tool.py:115-119 | a target equal to the server's name, ignoring case, selects the server |
| WorkflowTool.HostSelects | Tools/remote_workflow_tool.py:115-119 | a target equal to the server's host, ignoring case, selects the server |
| WorkflowTool.Selected | Tools/remote_workflow_tool.py:63-65 | no targets keeps every server |
| WorkflowTool.IsSuccessResult | Tools/remote_workflow_tool.py:121-127 | true exactly when every stage result that is a dictionary with a truthy status has status Success or Skipped |
| WorkflowTool.ExecutionError | Tools/remote_workflow_tool.py:79-86 | the error result for a server whose run raised never counts as a success |
| WorkflowTool.Outcomes | Tools/remote_workflow_tool.py:76-89 | one result per server |
| WorkflowTool.DetailsShownIffTruthy | Tools/remote_workflow_tool.py:140-145 | a details line appears exactly when the stage's details are truthy |
| WorkflowTool.ServerOnlyResult | Tools/remote_workflow_tool.py:134-148 | a result that holds only its server name lists nothing under its header |
| WorkflowTool.ResultHeaders | Tools/remote_workflow_tool.py:134-148 | only the first of a result's lines is a header line |
| WorkflowTool.OneHeaderPerResult | Tools/remote_workflow_tool.py:129-149 | the summary has exactly one header line per result |
| WorkflowTool.AppendResultLines | Tools/remote_workflow_tool.py:135-148 | the lines of one result are appended to those so far |
| WorkflowTool.AppendBody | Tools/remote_workflow_tool.py:137-147 | the entries of one result are appended in order |
| WorkflowTool.AppendEntry | Tools/remote_workflow_tool.py:137-147 | the server entry adds nothing; every other entry adds its lines |
| WorkflowTool.AppendItem | Tools/remote_workflow_tool.py:140-147 | a stage adds its status line and its details line when truthy; any other value adds one line |
| WorkflowTool.FormatSummary | Tools/remote_workflow_tool.py:129-149 | the method gives the summary text |
| WorkflowTool.OutcomeAt | Tools/remote_workflow_tool.py:76-87 | the i-th result is the i-th server's |
| WorkflowTool.ReportFollowsSelection | Tools/remote_workflow_tool.py:63-105 | once servers are selected, the run reports one result per selected server, in inventory order |
| WorkflowTool.SuccessReportVerdict | Tools/remote_workflow_tool.py:88-105 | the report lists every result, and its status is Success exactly when every server's result succeeded |
| WorkflowTool.NoMatchFails | Tools/remote_workflow_tool.py:64-70 | targets that name no server fail the run before any server is contacted |
| WorkflowTool.Run | Tools/remote_workflow_tool.py:48-105 | the method gives the workflow report |
| WorkflowTool.RunEach | Tools/remote_workflow_tool.py:76-89 | the loop gives one result per server, and the overall flag is true exactly when every result succeeded |
| WorkflowTool.RunOne | Tools/remote_workflow_tool.py:77-89 | the server's result, with an exception turned into an error result, and whether it succeeded |
| PosixShell.QuoteWordTail | Remote/install/remote_tomcat_uninstall.py:127 | the quoted text, read back by a POSIX shell, is exactly the one original word, whatever it holds |
| PosixShell.QuotedLineReadsBack | Remote/post_install/tomcat_start.py:183 | a line of quoted words reads back as exactly those words |
| PosixShell.QuotedPipelineReadsBack | Remote/pre_install/remote_disk_check.py:116 | two quoted command lines joined by a pipe read back as both word lists around the pipe |
| PowerShellQuoting.EscapeReadsBack | Remote/install/remote_tomcat_uninstall.py:81 | the text with each quote doubled, then a closing quote, reads back as the original text |
| PowerShellQuoting.LiteralReadsBack | Remote/utilities/remote_download.py:23 | a literal built by doubling quotes reads back as exactly its text, whatever follows it |
| WorkflowRunner.PyGet | Remote/run_remote_workflow.py:45 | `get` succeeds exactly on a dictionary |
| WorkflowRunner.ServerName | Remote/run_remote_workflow.py:25 | the name when present, else the host when present, else None |
| WorkflowRunner.Credential | Remote/run_remote_workflow.py:32-33 | a credential is passed exactly when the field is present and non-empty |
| WorkflowRunner.HomePrecedence | Remote/run_remote_workflow.py:68-75 | the effective home is the first truthy of the installed home, the default home, and the start, validation and stop sections' homes |
| WorkflowRunner.StageHomePrecedence | Remote/run_remote_workflow.py:72-74 | among the stage sections, start comes before validation, which comes before stop |
| WorkflowRunner.Lookup | Remote/run_remote_workflow.py:49 | a recorded stage is found exactly when its key was recorded |
| WorkflowRunner.LookupAppend | Remote/run_remote_workflow.py:48-106 | a key recorded earlier is found in the earlier part; otherwise in the later part |
| WorkflowRunner.PostStages | Remote/run_remote_workflow.py:77-106 | the post-install stages only add entries after what the earlier stages recorded |
| WorkflowRunner.StartRecorded | Remote/run_remote_workflow.py:77-83 | start runs exactly when configured, and is given the effective home |
| WorkflowRunner.ValidationRecorded | Remote/run_remote_workflow.py:85-98 | validation runs when configured and a home is known, and is recorded as Skipped when it is configured but no home is known |
| WorkflowRunner.StopRecorded | Remote/run_remote_workflow.py:100-106 | stop runs exactly when configured, and is given the effective home |
| WorkflowRunner.PostInstall | Remote/run_remote_workflow.py:62-108 | the post-install part keeps everything recorded before it |
| WorkflowRunner.JavaConfig | Remote/run_remote_workflow.py:45 | the lookup succeeds only on dictionary settings |
| WorkflowRunner.Provision | Remote/run_remote_workflow.py:44-108 | the stages after connecting keep the server entry first |
| WorkflowRunner.InstallThenPost | Remote/run_remote_workflow.py:52-108 | the install and post-install stages keep what the Java stage recorded |
| WorkflowRunner.Workflow | Remote/run_remote_workflow.py:24-112 | a record without host or username raises; a result always starts with the server entry; a failed connect records only the connection failure |
| WorkflowRunner.JavaFailureStops | Remote/run_remote_workflow.py:46-50 | a configured Java install that does not succeed ends the run: Tomcat is not installed and no post-install stage runs |
| WorkflowRunner.InstallFailureStops | Remote/run_remote_workflow.py:55-59 | a configured Tomcat install that does not succeed ends the run before any post-install stage |
| WorkflowRunner.RunForServer | Remote/run_remote_workflow.py:24-112 | the method gives the workflow result; a session is opened exactly when the record has a host and a username, with those credentials, and it is closed on every way out |
| WorkflowRunner.ProvisionStages | Remote/run_remote_workflow.py:44-60 | the Java and Tomcat install stages, each returning early when it does not succeed |
| WorkflowRunner.RunPostInstall | Remote/run_remote_workflow.py:62-108 | the method gives the post-install result |
| WorkflowRunner.AppendStages | Remote/run_remote_workflow.py:77-106 | the three stage blocks append what the specification says |
| RemotePortCheck.Insert | Remote/pre_install/remote_port_check.py:157 | inserting into a strictly increasing list keeps it strictly increasing, with exactly the old elements and the new one |
| RemotePortCheck.SortedDistinct | Remote/pre_install/remote_port_check.py:157 | `sorted(set(xs))` is strictly increasing and has exactly the elements of xs |
| RemotePortCheck.IncreasingUnique | Remote/pre_install/remote_port_check.py:157 | a strictly increasing list is determined by its elements |
| RemotePortCheck.NormalizedPorts | Remote/pre_install/remote_port_check.py:144-157 | the ports are strictly increasing, and a port is listed exactly when some item converts to it |
| RemotePortCheck.NormalizedIgnoresOrder | Remote/pre_install/remote_port_check.py:144-157 | reordering or repeating the items does not change the port list |
| RemotePortCheck.DefaultPortsSorted | Remote/pre_install/remote_port_check.py:38 | the default ports normalise to 8005, 8009, 8080 |
| RemotePortCheck.NormalizePorts | Remote/pre_install/remote_port_check.py:144-157 | the method gives the normalised ports |
| RemotePortCheck.ConvertPorts | Remote/pre_install/remote_port_check.py:145-156 | the loop keeps every item that converts, in order |
| RemotePortCheck.StringPortsAreDigits | Remote/pre_install/remote_port_check.py:146-157 | a string of ports, iterated as written, yields only one-digit ports |
| RemotePortCheck.IteratedItems | Remote/pre_install/remote_port_check.py:146 | `for item in ports` as written: a string gives one item per character |
| RemotePortCheck.PortItems | Remote/pre_install/remote_port_check.py:18-22 | the corrected reading of `ports`: a list gives its items and a string its comma-separated pieces; items exist exactly for a string or a list |
| RemotePortCheck.CommaPortsReadBack | Remote/pre_install/remote_port_check.py:18-22 | under the corrected reading, a comma-separated list of port numbers, as the parameter's description promises, reads back as exactly those ports |
| RemotePortCheck.ColonDigitsExact | Remote/pre_install/remote_port_check.py:131-133 | in a line whose only colon is followed by the digits of q and then whitespace or the end, exactly port q is found, so port 80 is not found in ":8080" |
| RemotePortCheck.FirstPidField | Remote/pre_install/remote_port_check.py:136 | the leftmost place where `pid=` and digits occur, or None when there is none |
| RemotePortCheck.ExtractedPid | Remote/pre_install/remote_port_check.py:135-142 | a process identifier found is all digits |
| RemotePortCheck.PidFieldWins | Remote/pre_install/remote_port_check.py:136-138 | the digits after the first `pid=` are the identifier |
| RemotePortCheck.LastWordPid | Remote/pre_install/remote_port_check.py:139-142 | without `pid=`, the identifier is the last word when it is all digits, else None |
| RemotePortCheck.MatchReport | Remote/pre_install/remote_port_check.py:70-78 | a matching line is shown stripped and indented, and sends the process query for the identifier it holds, or nothing when it holds none |
| RemotePortCheck.Status | Remote/pre_install/remote_port_check.py:80 | Success exactly when every port header says free |
| RemotePortCheck.SummaryHeaders | Remote/pre_install/remote_port_check.py:63-78 | the summary holds one header per port, in the order of the ports, and no other line starting with "Port" |
| RemotePortCheck.HeaderSaysFree | Remote/pre_install/remote_port_check.py:65-69 | a header mentions "free" in any case exactly when its port is free |
| RemotePortCheck.VerdictIffAllFree | Remote/pre_install/remote_port_check.py:63-80 | every header says free exactly when no line of the listing names a requested port |
| RemotePortCheck.ReportVerdict | Remote/pre_install/remote_port_check.py:80-88 | a finished check reports Success exactly when no line names a requested port |
| RemotePortCheck.WindowsVerdict | Remote/pre_install/remote_port_check.py:53-88 | on Windows, Success exactly when no line of the `netstat -ano` output names a requested port |
| RemotePortCheck.LinuxVerdict | Remote/pre_install/remote_port_check.py:90-129 | on Linux, Success exactly when no line of the listing used names a requested port |
| RemotePortCheck.WindowsDetails | Remote/pre_install/remote_port_check.py:59-86 | the details list one header per requested port, in order, whatever the listing |
| RemotePortCheck.NetstatOnlyWhenSsSilent | Remote/pre_install/remote_port_check.py:97-101 | `ss` is always asked first, and `netstat` second exactly when `ss` printed nothing |
| RemotePortCheck.ReportSendsNoListing | Remote/pre_install/remote_port_check.py:104-119 | no command the Linux report sends is the `netstat` listing |
| RemotePortCheck.RequestedPorts | Remote/pre_install/remote_port_check.py:37-38 | fails exactly when no ports are given and the OS section is not a dictionary |
| RemotePortCheck.ListsOnlyWhenListable | Remote/pre_install/remote_port_check.py:39-47 | a listing command is sent exactly when there are ports to inspect on a known system; otherwise the tool fails without sending one |
| RemotePortCheck.RunListsOnlyWhenListable | Remote/pre_install/remote_port_check.py:26-51 | the run sends the OS probes first, and more only when there is something to list |
| RemotePortCheck.DefaultsWhenUnconfigured | Remote/pre_install/remote_port_check.py:38 | with no ports from the caller or the configuration, ports 8005, 8009 and 8080 are inspected, in that order |
| RemotePortCheck.CallerPortsWin | Remote/pre_install/remote_port_check.py:38 | ports from the caller override the configuration |
| RemotePortCheck.DescribeMatch | Remote/pre_install/remote_port_check.py:70-78 | the lines added and the commands sent for one matching line |
| RemotePortCheck.DescribeMatches | Remote/pre_install/remote_port_check.py:70-78 | the loop over the matching lines adds their lines and sends their queries, in order |
| RemotePortCheck.InspectPort | Remote/pre_install/remote_port_check.py:64-78 | one port: its header, then its matching lines |
| RemotePortCheck.InspectPorts | Remote/pre_install/remote_port_check.py:63-78 | the loop over the requested ports |
| RemotePortCheck.CheckWindows | Remote/pre_install/remote_port_check.py:53-88 | the Windows result, and exactly the commands the specification sends |
| RemotePortCheck.ListLinux | Remote/pre_install/remote_port_check.py:97-102 | the Linux listing and the one or two commands it sends |
| RemotePortCheck.CheckLinux | Remote/pre_install/remote_port_check.py:90-129 | the Linux result, and exactly the commands the specification sends |
| RemotePortCheck.Run | Remote/pre_install/remote_port_check.py:26-51 | the tool's result, and the issued commands grow by exactly the run's commands |
| CheckPorts.LocalShell.RunCmd | Tools/pre_requisit_check/check_ports.py:23-25 | records the command, and gives the stripped standard output, or standard error when there is no output |
| CheckPorts.CollapsedSpaced | Tools/pre_requisit_check/check_ports.py:47-49 | a collapsed line is single-spaced, and it is empty exactly when the line has no word |
| CheckPorts.NetstatPid | Tools/pre_requisit_check/check_ports.py:52 | the identifier is the last whitespace-separated field of the line exactly when that field is all digits, else there is none |
| CheckPorts.AllFreeNext | Tools/pre_requisit_check/check_ports.py:55-59 | the verdict over one more port holds exactly when it held before and the new port has no match |
| CheckPorts.NotWindowsRunsNothing | Tools/pre_requisit_check/check_ports.py:29-36 | off Windows the tool fails without running anything |
| CheckPorts.HeaderSaysFree | Tools/pre_requisit_check/check_ports.py:56-60 | the header reads free exactly when the port has no match |
| CheckPorts.SummaryHeaders | Tools/pre_requisit_check/check_ports.py:44-74 | the summary holds one header per port, in the order given, and no other line starting with "Port" |
| CheckPorts.VerdictIffHeadersFree | Tools/pre_requisit_check/check_ports.py:76 | the verdict is Success exactly when every port's header reads free |
| CheckPorts.OnlyTaskQueries | Tools/pre_requisit_check/check_ports.py:38-74 | `netstat -ano` runs first, and every later command is a `tasklist` query for a process identifier |
| CheckPorts.FindMatches | Tools/pre_requisit_check/check_ports.py:45-53 | the inner loop keeps the collapsed, non-blank lines that name the port, in order |
| CheckPorts.ShowTasks | Tools/pre_requisit_check/check_ports.py:66-72 | the `tasklist` lines, each indented, or the no-info line |
| CheckPorts.DescribeLine | Tools/pre_requisit_check/check_ports.py:61-74 | the lines one matching line adds, and the query it runs when the line has a process identifier |
| CheckPorts.DescribeLines | Tools/pre_requisit_check/check_ports.py:61-74 | the loop over a port's matching lines |
| CheckPorts.InspectPort | Tools/pre_requisit_check/check_ports.py:44-74 | the port is free exactly when nothing matches, and its lines and queries |
| CheckPorts.InspectPorts | Tools/pre_requisit_check/check_ports.py:41-74 | the overall flag holds exactly when every port is free, and the summary and queries of all the ports |
| CheckPorts.Run | Tools/pre_requisit_check/check_ports.py:27-85 | the tool's result, and exactly the commands it runs |
| CheckJava.SearchVersion | Tools/pre_requisit_check/check_java.py:51 | no match exactly when the text has no digit; the groups found are digit strings |
| CheckJava.ParseJavaMajor | Tools/pre_requisit_check/check_java.py:40-60 | a text without a digit gives 0 |
| CheckJava.MajorIsFirstNumber | Tools/pre_requisit_check/check_java.py:51-60 | the major version is the first number in the text, unless that number is 1 |
| CheckJava.LegacyMajor | Tools/pre_requisit_check/check_java.py:55-57 | a legacy `1.x` or `1-x` gives x, so `1.8.0_351` is Java 8 |
| CheckJava.BareOne | Tools/pre_requisit_check/check_java.py:54-60 | a bare 1, with no `.` or `-` and digits after it, stays 1 |
| CheckJava.PassesFromEleven | Tools/pre_requisit_check/check_java.py:71-73 | the check passes exactly when the major version read is 11 or later, and otherwise fails |
| CheckJava.ModernJavaPasses | Tools/pre_requisit_check/check_java.py:71-73 | a Java whose version text starts with a number of at least 11 passes, whatever `javac` printed |
| CheckJava.LegacyJavaFails | Tools/pre_requisit_check/check_java.py:71-73 | a legacy `1.x` Java with x below 11 fails, whatever `javac` printed |
| RemoteDiskCheck.TargetPath | Remote/pre_install/remote_disk_check.py:42-45 | the path is the caller's when truthy, else the system section's `path`, else the system's root, so it is never falsy; it fails exactly when the section has to be read and is not a dictionary |
| RemoteDiskCheck.Threshold | Remote/pre_install/remote_disk_check.py:47-48 | a threshold the caller gives is read with `int()` and the settings fail exactly when `int()` cannot read it |
| RemoteDiskCheck.DefaultSettings | Remote/pre_install/remote_disk_check.py:43-48 | with no path and no threshold anywhere, the check inspects `C:\` on Windows and `/` elsewhere against 2048 MB |
| RemoteDiskCheck.CallerSettingsWin | Remote/pre_install/remote_disk_check.py:43-48 | a path and a threshold from the caller are used as given, whatever the configuration holds |
| RemoteDiskCheck.ExtractDrive | Remote/pre_install/remote_disk_check.py:151-155 | the drive is always an upper-case letter followed by a colon |
| RemoteDiskCheck.DriveOfLetterPath | Remote/pre_install/remote_disk_check.py:151-155 | a path that starts with a letter and a colon names that letter's drive, upper-cased, whatever follows |
| RemoteDiskCheck.ExtractDriveIdempotent | Remote/pre_install/remote_disk_check.py:151-155 | the drive of a drive is that drive |
| RemoteDiskCheck.ParsedMetrics | Remote/pre_install/remote_disk_check.py:157-172 | figures read from the payload always hold the total, the free and the used space |
| RemoteDiskCheck.RecordedLastWins | Remote/pre_install/remote_disk_check.py:158-167 | a key is recorded exactly when some part names it with a number, and it holds the number of the last such part |
| RemoteDiskCheck.MetricsPresent | Remote/pre_install/remote_disk_check.py:168-172 | figures come back exactly when parts named both the total and the free space; without a `USED` part the used space is total minus free |
| RemoteDiskCheck.MetricsReadBack | Remote/pre_install/remote_disk_check.py:79 | the line `TOTAL=t;FREE=f` the PowerShell query prints reads back as t and f, with t minus f used |
| RemoteDiskCheck.RecordParts | Remote/pre_install/remote_disk_check.py:158-167 | the loop over the parts builds the map the specification records |
| RemoteDiskCheck.ParseMetrics | Remote/pre_install/remote_disk_check.py:157-172 | `_parse_metrics` returns the specified figures |
| RemoteDiskCheck.Verdict | Remote/pre_install/remote_disk_check.py:93-106 | the status is Success exactly when the free space reaches the threshold, and Failed otherwise; the result carries the figures and the command |
| RemoteDiskCheck.WindowsJudged | Remote/pre_install/remote_disk_check.py:83-106 | the Windows check succeeds exactly when the payload holds no `ERROR` in any case, its figures read, and its free space reaches the threshold; figures are reported exactly when there is no error and they read |
| RemoteDiskCheck.DfFigures | Remote/pre_install/remote_disk_check.py:124-130 | the second, third and fourth fields are the total, used and free megabytes, and the line fails exactly when one of them does not read as a number |
| RemoteDiskCheck.FieldsJudged | Remote/pre_install/remote_disk_check.py:120-149 | the Linux check succeeds exactly when `df` printed a last line of at least four fields whose figures read and whose free space reaches the threshold |
| RemoteDiskCheck.DfLineReadsBack | Remote/pre_install/remote_disk_check.py:116-117 | the `df` pipeline gives `df` exactly the requested path as one word, whatever the path holds |
| RemoteDiskCheck.LinuxCommandReadsBack | Remote/pre_install/remote_disk_check.py:116-117 | the corrected command hands `bash -lc` the `df` pipeline unchanged, whatever the shell's variables are |
| RemoteDiskCheck.AsWrittenExpands | Remote/pre_install/remote_disk_check.py:116-117 | in the command as written, the outer shell replaces `$name` in the path with the variable's value before `bash` reads the pipeline |
| RemoteDiskCheck.AsWrittenExpandsPath | Remote/pre_install/remote_disk_check.py:116-117 | as written, asking about the path `$X` has `df` inspect the value of `X` |
| RemoteDiskCheck.SettledQueries | Remote/pre_install/remote_disk_check.py:50-58 | once the settings are known, one query goes out exactly when the path is text on Windows or Linux; figures come back only with a verdict that compares their free space with the threshold, and a run without figures fails |
| RemoteDiskCheck.UnsettledSendsNothing | Remote/pre_install/remote_disk_check.py:42-48 | when the settings raise, nothing is sent and the run fails with the exception's message |
| RemoteDiskCheck.CheckWindows | Remote/pre_install/remote_disk_check.py:64-106 | `_check_windows` sends one query and returns the specified Windows outcome |
| RemoteDiskCheck.CheckLinux | Remote/pre_install/remote_disk_check.py:108-149 | `_check_linux` sends one query and returns the specified Linux outcome |
| RemoteDiskCheck.Run | Remote/pre_install/remote_disk_check.py:30-62 | `run` sends the probes and then exactly the commands of the specified outcome, and returns it |
| RemoteRamCheck.Threshold | Remote/pre_install/remote_ram_check.py:36-37 | a threshold the caller gives is read with `int()`, and the settings fail exactly when `int()` cannot read it; with none from the caller or the section it is 2048; a section that is not a dictionary raises |
| RemoteRamCheck.Verdict | Remote/pre_install/remote_ram_check.py:74-87 | the status is Success exactly when the total memory reaches the threshold, and Failed otherwise; the result carries the figures and the command |
| RemoteRamCheck.FreeNeverConsulted | Remote/pre_install/remote_ram_check.py:74 | the free memory plays no part in the verdict |
| RemoteRamCheck.ParsedMetrics | Remote/pre_install/remote_ram_check.py:117-128 | figures read from the payload always hold the total |
| RemoteRamCheck.MetricsPresent | Remote/pre_install/remote_ram_check.py:117-128 | figures come back exactly when some part names the total, and the total is the number of the last such part |
| RemoteRamCheck.MetricsReadBack | Remote/pre_install/remote_ram_check.py:65 | the line `TOTAL=t;FREE=f` the PowerShell query prints reads back as t and f |
| RemoteRamCheck.ParseMetrics | Remote/pre_install/remote_ram_check.py:117-128 | `_parse_metrics` returns the specified figures |
| RemoteRamCheck.FreeFigures | Remote/pre_install/remote_ram_check.py:134-144 | a `Mem:` line gives its second field as the total and its seventh as the free memory, and nothing when one of them does not read as a number |
| RemoteRamCheck.ParsedFree | Remote/pre_install/remote_ram_check.py:130-145 | figures read from `free -m` always hold the total |
| RemoteRamCheck.FirstMemLineDecides | Remote/pre_install/remote_ram_check.py:131-145 | the first line that starts with `mem:` and has at least seven fields decides, whatever follows it |
| RemoteRamCheck.ParseLinuxFree | Remote/pre_install/remote_ram_check.py:130-145 | `_parse_linux_free` returns the specified figures |
| RemoteRamCheck.WindowsJudged | Remote/pre_install/remote_ram_check.py:67-87 | the Windows check sends its query, reports the figures the payload gives, and succeeds exactly when they read and their total reaches the threshold |
| RemoteRamCheck.LinuxJudged | Remote/pre_install/remote_ram_check.py:95-115 | the Linux check sends `free -m`, reports the figures it gives, and succeeds exactly when they read and their total reaches the threshold |
| RemoteRamCheck.SettledQueries | Remote/pre_install/remote_ram_check.py:39-47 | once the threshold is known, one query goes out exactly when the system is Windows or Linux, and it is that system's query; figures come back only with a verdict on their total, and a run without figures fails |
| RemoteRamCheck.UnsettledSendsNothing | Remote/pre_install/remote_ram_check.py:36-37 | when the threshold raises, nothing is sent and the run fails with the exception's message |
| RemoteRamCheck.Run | Remote/pre_install/remote_ram_check.py:25-51 | `run` sends the probes and then exactly the commands of the specified outcome, and returns it |
| RemoteDownload.JoinPathsFlat | Remote/utilities/remote_download.py:18-22 | the fold over the later segments is one `(Join-Path ` per segment, then the first piece, then each segment's quoted literal and closing parenthesis in path order |
| RemoteDownload.PlainPathReadsBack | Remote/utilities/remote_download.py:11-24 | a path that does not start with `$` becomes a literal that PowerShell reads back as the stripped path, quotes and all, and a blank path becomes `''` |
| RemoteDownload.DollarPathNests | Remote/utilities/remote_download.py:14-22 | a `$`-path keeps its first piece as written and wraps one `Join-Path` around it per later non-empty piece |
| RemoteDownload.ToPsLiteral | Remote/utilities/remote_download.py:9-24 | the loop of `_to_ps_literal` builds the specified literal |
| RemoteDownload.UrlReadsBack | Remote/utilities/remote_download.py:54-62 | PowerShell reads the URL in the download command back exactly, whatever quotes it holds |
| RemoteDownload.SizeOfNumber | Remote/utilities/remote_download.py:81 | a size printed as a number is accepted exactly when it reaches the minimum, and a negative minimum accepts every size |
| RemoteDownload.Judged | Remote/utilities/remote_download.py:75-99 | both commands are reported, the size is the stripped reply, and the status is Success exactly when that size is accepted, else Failed |
| RemoteDownload.DownloadVerdict | Remote/utilities/remote_download.py:42-99 | the download goes out first and the size query second, and the verdict is the size check on the second reply |
| RemoteDownload.Run | Remote/utilities/remote_download.py:42-99 | `run` sends exactly the two specified commands and returns the specified result |
| RemoteExtract.PatternReadsBack | Remote/utilities/remote_extract.py:57-67 | PowerShell reads the pattern in the folder query back exactly, whatever quotes it holds |
| RemoteExtract.Finished | Remote/utilities/remote_extract.py:68-92 | the folder is the stripped reply to the folder query, or empty without one, and the status is Success exactly when the expansion printed no error and, with a query, a folder came back |
| RemoteExtract.ExtractPlain | Remote/utilities/remote_extract.py:41-92 | without a pattern only the expansion goes out, the folder is empty, and the run succeeds exactly when the expansion printed no error |
| RemoteExtract.ExtractMatched | Remote/utilities/remote_extract.py:41-92 | with a pattern the expansion and then the folder query go out, the folder is the query's stripped reply, and the run succeeds exactly when the expansion printed no error and a folder came back |
| RemoteExtract.ExtractionRule | Remote/utilities/remote_extract.py:55-81 | the folder query goes out exactly when a pattern is given; without one the folder is empty; the run succeeds exactly when the expansion printed no error and, with a pattern, a folder was found |
| RemoteExtract.Run | Remote/utilities/remote_extract.py:29-92 | `run` sends exactly the specified commands and returns the specified result |
| RemoteJavaInstall.Section | Remote/pre_install/remote_java_install.py:43-84 | a missing section reads as an empty dictionary, and reading it fails exactly when it is present and not a dictionary |
| RemoteJavaInstall.PackageCommands | Remote/pre_install/remote_java_install.py:60-64 | no package command without packages; a list that cannot be joined raises before anything is sent; otherwise the update goes out first, and the install command follows exactly when it formats, its formatting error being raised after the update otherwise |
| RemoteJavaInstall.DefaultPackageInstall | Remote/pre_install/remote_java_install.py:61-64 | with the default install command, the update is followed by `sudo apt install -y` and the joined package list |
| RemoteJavaInstall.PackageFormatFailsAfterUpdate | Remote/pre_install/remote_java_install.py:63-64 | an install command that does not format fails the run after the update went out, and nothing else is sent |
| RemoteJavaInstall.LinuxSetup | Remote/pre_install/remote_java_install.py:59-77 | a package stage that raised fails with its message after what it sent; otherwise the package commands, `wget`, `mkdir` and `tar` go out, then the version check, whose reply decides the result |
| RemoteJavaInstall.LinuxProbed | Remote/pre_install/remote_java_install.py:53-57 | `java -version` goes out first, and a reply naming a version ends the run with Success after that one command |
| RemoteJavaInstall.LinuxInstall | Remote/pre_install/remote_java_install.py:44-53 | without a download URL the run fails naming the setting before any command; with one, the probe is the first command |
| RemoteJavaInstall.LinuxNeedsUrl | Remote/pre_install/remote_java_install.py:50-51 | on Linux a missing download URL fails naming `linux.download_url` after the system probes only |
| RemoteJavaInstall.LinuxAlreadyInstalled | Remote/pre_install/remote_java_install.py:54-57 | a Linux probe that names a version ends the run with Success, the probe being the only command |
| RemoteJavaInstall.LinuxVerdict | Remote/pre_install/remote_java_install.py:59-77 | once the packages are settled, the commands are the probe, the package, fetch and unpack commands and the version check, and the run succeeds exactly when the last reply names a version |
| RemoteJavaInstall.Verified | Remote/pre_install/remote_java_install.py:69-77 | the status is Success exactly when the reply names a version, in any case, and Failed otherwise |
| RemoteJavaInstall.WindowsSettingsOf | Remote/pre_install/remote_java_install.py:85-90 | the settings read exactly when `int()` reads the minimum download size, and the folder pattern defaults to the JDK pattern |
| RemoteJavaInstall.WindowsAlreadyInstalled | Remote/pre_install/remote_java_install.py:95-99 | a Windows probe that names a version ends the run with Success, the probe being the only command |
| RemoteJavaInstall.WindowsInstall | Remote/pre_install/remote_java_install.py:85-101 | an unreadable size fails before any command; a missing URL, archive path or install root fails naming them; otherwise the probe is the first command |
| RemoteJavaInstall.ArchiveDirIsFolder | Remote/pre_install/remote_java_install.py:105 | without `archive_dir` the archive folder is the part of the archive path before its last backslash |
| RemoteJavaInstall.WindowsSetup | Remote/pre_install/remote_java_install.py:103-107 | the two folder commands are the first commands of the installation |
| RemoteJavaInstall.DownloadFailureStops | Remote/pre_install/remote_java_install.py:120-129 | a failed download ends the run with its result renamed and its details logged, and nothing is sent after it |
| RemoteJavaInstall.AfterDownload | Remote/pre_install/remote_java_install.py:124-129 | a download that did not succeed is handed back under this tool's name with the accumulated logs |
| RemoteJavaInstall.ExtractionFailureStops | Remote/pre_install/remote_java_install.py:143-153 | a failed extraction, or one that found no folder, ends the run with its result renamed, before any environment change |
| RemoteJavaInstall.NoFolderFails | Remote/pre_install/remote_java_install.py:137-153 | with a folder pattern, an extraction that found no folder fails |
| RemoteJavaInstall.NoPatternStopsAfterExtraction | Remote/pre_install/remote_java_install.py:147-153 | a folder pattern of `None` means no folder is ever found, so the run ends after the extraction with the extraction's status |
| RemoteJavaInstall.JavaHomeOf | Remote/pre_install/remote_java_install.py:162-166 | without an expression `JAVA_HOME` is the folder joined to the install root; an expression holding `{folder}` between brace-free texts gets the folder in its place |
| RemoteJavaInstall.EnvironmentCommands | Remote/pre_install/remote_java_install.py:168-192 | both environment commands go out or neither, as `set_environment` is truthy or not |
| RemoteJavaInstall.WindowsConfigured | Remote/pre_install/remote_java_install.py:162-210 | an expression that does not format fails before anything is sent; a version query that does not format fails after the environment commands; otherwise the environment commands and the query go out and the run succeeds exactly when the query's reply names a version |
| RemoteJavaInstall.DefaultVersionQuery | Remote/pre_install/remote_java_install.py:198-200 | without a configured query, a brace-free `JAVA_HOME` gives the default query on the new `java.exe` unchanged |
| RemoteJavaInstall.VersionQueryNotText | Remote/pre_install/remote_java_install.py:199-200 | a configured version query that is not a string raises after the environment commands, and the run fails logging the exception |
| RemoteJavaInstall.UnknownOsFails | Remote/pre_install/remote_java_install.py:212 | a system that is neither Linux nor Windows fails with `Unknown OS` after the probes |
| RemoteJavaInstall.SetupLinux | Remote/pre_install/remote_java_install.py:59-77 | the loop sends the package commands and, unless the package stage raised, `wget`, `mkdir`, `tar` and the version check; the result is the Linux setup's: the package failure, or Success exactly when the last reply names a version |
| RemoteJavaInstall.Configure | Remote/pre_install/remote_java_install.py:162-210 | the result is the Windows configuration's: a `JAVA_HOME` expression that does not format fails before anything is sent, a version query that does not format fails after the environment commands, and otherwise the run succeeds exactly when the query's reply names a version |
| RemoteJavaInstall.Run | Remote/pre_install/remote_java_install.py:30-216 | `run` sends the probes and then exactly the commands of the specified installation, and returns its result |
| RemoteTomcatInstall.Failed | Remote/install/remote_tomcat_install.py:179-189 | a failure carries the message as details, no home, and the payload exactly when one is given |
| RemoteTomcatInstall.Installed | Remote/install/remote_tomcat_install.py:111-170 | a finished installation succeeds, names the home in its details and in `tomcat_home`, and carries no payload |
| RemoteTomcatInstall.JoinPath | Remote/install/remote_tomcat_install.py:203-209 | an empty leaf gives the base; otherwise the result starts with the base and ends with the leaf |
| RemoteTomcatInstall.JoinPathBackslash | Remote/install/remote_tomcat_install.py:206-209 | a base holding a backslash and not ending in a separator is joined with a backslash, and splits back at it |
| RemoteTomcatInstall.JoinPathSlash | Remote/install/remote_tomcat_install.py:206-209 | a base without a backslash and not ending in a separator is joined with a slash, and `dirname` gives the base back |
| RemoteTomcatInstall.NoSlashNoFolder | Remote/install/remote_tomcat_install.py:63 | `os.path.dirname` of a path without a slash, such as a Windows path with backslashes, is empty |
| RemoteTomcatInstall.DirnameOf | Remote/install/remote_tomcat_install.py:63 | the folder of `dir/name` is `dir` |
| RemoteTomcatInstall.TarFlags | Remote/install/remote_tomcat_install.py:152-153 | tar is told the archive is gzipped exactly when its name ends in `.gz` |
| RemoteTomcatInstall.LinuxHome | Remote/install/remote_tomcat_install.py:158 | the home is `final_directory` when it is truthy, else the install root |
| RemoteTomcatInstall.LinuxCommands | Remote/install/remote_tomcat_install.py:145-160 | five commands with the archive removal as the fourth, or four without it, and the last makes the home's scripts executable |
| RemoteTomcatInstall.LinuxInstall | Remote/install/remote_tomcat_install.py:135-170 | a missing URL, archive path or install root fails before any command; with a readable `strip_components` the run succeeds with the Linux commands and the home |
| RemoteTomcatInstall.LinuxHomeChosen | Remote/install/remote_tomcat_install.py:158-170 | a configured Linux installation succeeds with `final_directory` as its home when set, else the install root |
| RemoteTomcatInstall.LinuxCleanup | Remote/install/remote_tomcat_install.py:155-156 | the archive is removed exactly when `cleanup_archive` is not falsy |
| RemoteTomcatInstall.WindowsSettingsOf | Remote/install/remote_tomcat_install.py:53-57 | the settings read exactly when `int()` reads the minimum download size |
| RemoteTomcatInstall.WindowsFinished | Remote/install/remote_tomcat_install.py:99-119 | the end of the Windows branch sends the permissions command and then the cleanup unless disabled, and succeeds with the folder as home |
| RemoteTomcatInstall.AfterExtraction | Remote/install/remote_tomcat_install.py:88-119 | a failed extraction fails with its result as payload; a blank directory fails without one; a success has the folder joined to the install root as home |
| RemoteTomcatInstall.WindowsSetup | Remote/install/remote_tomcat_install.py:62-64 | the two folder commands are the first commands of the Windows installation |
| RemoteTomcatInstall.WindowsInstall | Remote/install/remote_tomcat_install.py:52-60 | an unreadable size fails before any command, and a missing URL, archive path or install root fails with `Configuration missing for windows` |
| RemoteTomcatInstall.DownloadFailureStops | Remote/install/remote_tomcat_install.py:74-78 | a failed download fails the run with `Download failed` and the download's result as payload, and nothing is sent after it |
| RemoteTomcatInstall.ExtractionFailureStops | Remote/install/remote_tomcat_install.py:88-92 | a failed extraction fails the run with `Extraction failed` and the extraction's result as payload, and nothing is sent after it |
| RemoteTomcatInstall.ExtractionSucceeds | Remote/install/remote_tomcat_install.py:94-119 | after a successful extraction the home is the folder found joined to the install root, and the permissions and cleanup commands follow the extraction |
| RemoteTomcatInstall.RunShaped | Remote/install/remote_tomcat_install.py:30-47 | every result is a success naming its home with no payload, or a failure with no home |
| RemoteTomcatInstall.MissingConfigFails | Remote/install/remote_tomcat_install.py:59-177 | a missing URL, archive path or install root fails with `Configuration missing for` the system, after the probes only |
| RemoteTomcatInstall.UnsupportedFails | Remote/install/remote_tomcat_install.py:42-43 | a system that is neither Windows nor Linux fails with `Unsupported OS` after the probes only |
| RemoteTomcatInstall.InstallLinux | Remote/install/remote_tomcat_install.py:135-170 | `_install_linux` sends the specified commands one after the other and returns the specified result |
| RemoteTomcatInstall.InstallWindows | Remote/install/remote_tomcat_install.py:52-119 | `_install_windows` sends exactly the specified commands and returns the specified result |
| RemoteTomcatInstall.Run | Remote/install/remote_tomcat_install.py:30-47 | `run` sends the probes and then exactly the commands of the specified installation |
| RemoteTomcatUninstall.Failed | Remote/install/remote_tomcat_uninstall.py:49-63 | a failure carries its message as details and sends nothing |
| RemoteTomcatUninstall.ExceptionFailure | Remote/install/remote_tomcat_uninstall.py:65-67 | an exception fails the run with its message as details and sends nothing more |
| RemoteTomcatUninstall.Lookup | Remote/install/remote_tomcat_uninstall.py:46-47 | `get` succeeds exactly on a dictionary |
| RemoteTomcatUninstall.RemovalCommands | Remote/install/remote_tomcat_uninstall.py:80-141 | the home is removed first, and the logs directory second exactly when cleanup is chosen and a logs directory is named |
| RemoteTomcatUninstall.Succeeded | Remote/install/remote_tomcat_uninstall.py:107-149 | success names the removed home in its details |
| RemoteTomcatUninstall.Removed | Remote/install/remote_tomcat_uninstall.py:72-149 | on a supported system the removal succeeds whatever the commands print, and sends exactly the removal commands |
| RemoteTomcatUninstall.ResolvedSettings | Remote/install/remote_tomcat_uninstall.py:46-60 | with dictionaries for settings, the home, the cleanup choice and the logs directory are read without error, each taking the argument first, then the section, then the top level |
| RemoteTomcatUninstall.RemovesChosen | Remote/install/remote_tomcat_uninstall.py:34-61 | on Windows or Linux with a home named somewhere, the run succeeds after removing the chosen home and, when chosen, the logs directory |
| RemoteTomcatUninstall.LogsRemovedIff | Remote/install/remote_tomcat_uninstall.py:93-134 | a second removal is sent exactly when cleanup is chosen and a logs directory is named |
| RemoteTomcatUninstall.HomeMissingFails | Remote/install/remote_tomcat_uninstall.py:47-49 | with no home anywhere the run fails with `Tomcat home directory not supplied` after the probes only |
| RemoteTomcatUninstall.UnsupportedFails | Remote/install/remote_tomcat_uninstall.py:63 | a system other than Windows or Linux fails with `Unsupported operating system` after the probes only |
| RemoteTomcatUninstall.WindowsRemovalReadsBack | Remote/install/remote_tomcat_uninstall.py:81-86 | PowerShell reads both quoted paths of the Windows removal back as exactly the path, whatever quotes it holds |
| RemoteTomcatUninstall.LinuxRemovalReadsBack | Remote/install/remote_tomcat_uninstall.py:127-128 | the shell hands `rm` exactly the words `-rf` and the path, whatever the path holds |
| RemoteTomcatUninstall.RemoveOne | Remote/install/remote_tomcat_uninstall.py:80-91 | one removal: sends exactly its command and logs its announcement and output |
| RemoteTomcatUninstall.Remove | Remote/install/remote_tomcat_uninstall.py:72-149 | `_uninstall_windows` / `_uninstall_linux` send exactly the specified commands and return the specified result |
| RemoteTomcatUninstall.Resolve | Remote/install/remote_tomcat_uninstall.py:46-63 | `run` once the system is known returns the specified result |
| RemoteTomcatUninstall.RemoveKnownHome | Remote/install/remote_tomcat_uninstall.py:51-63 | `run` once the home is known returns the specified result |
| RemoteTomcatUninstall.Run | Remote/install/remote_tomcat_uninstall.py:34-67 | `run` sends the probes and exactly the specified removals, and returns the specified result |
| TomcatStart.Failed | Remote/post_install/tomcat_start.py:327-334 | a failure carries its message as details, no home and no commands |
| TomcatStart.ExceptionFailure | Remote/post_install/tomcat_start.py:85-87 | an exception fails the run with its message as details and sends nothing more |
| TomcatStart.AsReal | Remote/post_install/tomcat_start.py:301-302 | a positive number reads as a positive real, the value `float()` gives |
| TomcatStart.RoundHalfEven | Remote/post_install/tomcat_start.py:52-53 | the whole number `:.0f` prints lies within one half of the value |
| TomcatStart.StartedStatus | Remote/post_install/tomcat_start.py:128-233 | the run fails exactly when the port is not ready, warns exactly when it is ready and the start wrote to stderr, and succeeds otherwise |
| TomcatStart.Verdict | Remote/post_install/tomcat_start.py:143-242 | the verdict has the status above and names the home |
| TomcatStart.WaitLimit | Remote/post_install/tomcat_start.py:265 | the wait's own timeout is longer than the readiness timeout |
| TomcatStart.SecondsChoice | Remote/post_install/tomcat_start.py:295-313 | a timeout is the section's value if a positive number, else the top level's if a positive number, else 120, and is always positive |
| TomcatStart.PortChoice | Remote/post_install/tomcat_start.py:315-325 | the port is the first of the section's and the top level's that is a positive integer or a digit string, digits read as a number, else 8080 |
| TomcatStart.DigitPort | Remote/post_install/tomcat_start.py:323-324 | a digit-string port is read as its decimal value |
| TomcatStart.TemplateWins | Remote/post_install/tomcat_start.py:103-197 | a configured template is the start command: a non-string raises, a brace-free one is sent as it is, and `{tomcat_home}` between brace-free texts is replaced by the home |
| TomcatStart.LinuxDefaultReadsBack | Remote/post_install/tomcat_start.py:181-195 | without a template, the shell hands `bash` exactly `-lc` and the built-in script, whatever the home holds |
| TomcatStart.ReadyIff | Remote/post_install/tomcat_start.py:264-293 | the port is ready exactly when the wait finishes in time with a blank stderr; a timeout reports its message as the error |
| TomcatStart.StartOverran | Remote/post_install/tomcat_start.py:82-200 | a start command that overruns fails with the timeout's message, and nothing follows it |
| TomcatStart.StartAnswered | Remote/post_install/tomcat_start.py:122-242 | a start command that answers in time is followed by the wait, and the result names the home with the status above |
| TomcatStart.HomeMissingFails | Remote/post_install/tomcat_start.py:45-47 | with no home anywhere the run fails with `Tomcat home directory not supplied` after the probes only |
| TomcatStart.HomeChosen | Remote/post_install/tomcat_start.py:41-47 | the home is the argument, else the section's, else the top level's, and the run goes on exactly when one is set |
| TomcatStart.UnsupportedFails | Remote/post_install/tomcat_start.py:79-80 | a system other than Windows or Linux fails after the probes only |
| TomcatStart.RunStarts | Remote/post_install/tomcat_start.py:36-77 | on Windows or Linux with a home, the run is the probes followed by the start with the settings logged |
| TomcatStart.StartCommandFails | Remote/post_install/tomcat_start.py:85-197 | a start command that cannot be built fails the run with that error after the probes only |
| TomcatStart.StartTimeoutFails | Remote/post_install/tomcat_start.py:82-200 | a start command that overruns its timeout fails the run with the timeout's message, and nothing more is sent |
| TomcatStart.StartSendsWait | Remote/post_install/tomcat_start.py:122-215 | a start command that answers in time is followed by exactly one wait, and the run reports the home |
| TomcatStart.StartStatus | Remote/post_install/tomcat_start.py:128-242 | after a timely start the run fails unless the port is ready, else warns if the start wrote to stderr, else succeeds |
| TomcatStart.AsWrittenNeverStarts | Remote/post_install/tomcat_start.py:122 | as written, every run that reaches the start command fails with the `timeout=` keyword's `TypeError` and sends nothing after the probes |
| TomcatStart.WaitForReady | Remote/post_install/tomcat_start.py:244-293 | sends exactly the wait command, with a time limit above the readiness timeout, and reports ready exactly when it finishes in time with a blank stderr |
| TomcatStart.ContinueAfterStart | Remote/post_install/tomcat_start.py:123-242 | after the start, sends the specified commands and returns the specified result |
| TomcatStart.StartWith | Remote/post_install/tomcat_start.py:121-242 | sends the start command and what follows it, and returns the specified result |
| TomcatStart.StartOn | Remote/post_install/tomcat_start.py:92-242 | `_start_windows` / `_start_linux`: sends exactly the specified commands and returns the specified result |
| TomcatStart.Resolve | Remote/post_install/tomcat_start.py:41-80 | `run` once the system is known returns the specified result |
| TomcatStart.RunWith | Remote/post_install/tomcat_start.py:30-87 | `run` with given command builders sends the probes and exactly the specified commands |
| TomcatStart.Run | Remote/post_install/tomcat_start.py:30-87 | `run` sends the probes and exactly the specified commands, and returns the specified result |
| TomcatStop.Failed | Remote/post_install/tomcat_stop.py:76-83 | a failure carries its message as details, no home and no commands |
| TomcatStop.ExceptionFailure | Remote/post_install/tomcat_stop.py:72-74 | an exception fails the run with its message as details and sends nothing more |
| TomcatStop.Format | Remote/post_install/tomcat_stop.py:49 | a template that is not a string has no `format`; a string template is formatted with the home as `tomcat_home` |
| TomcatStop.Stopped | Remote/post_install/tomcat_stop.py:58-70 | the run succeeds when the command wrote nothing to stderr and warns otherwise, with the matching details, and names the command and the home |
| TomcatStop.ResolvedSettings | Remote/post_install/tomcat_stop.py:40-45 | with dictionaries for settings, the home and the template are read without error, the section first |
| TomcatStop.StopsWithTemplate | Remote/post_install/tomcat_stop.py:36-70 | with a home and a string template that formats, exactly the formatted command is sent after the probes, and the run succeeds exactly when it wrote nothing to stderr, else warns |
| TomcatStop.MalformedTemplateFails | Remote/post_install/tomcat_stop.py:49-74 | a template that does not format fails the run with the formatting error, and nothing is sent after the probes |
| TomcatStop.HomeMissingFails | Remote/post_install/tomcat_stop.py:41-43 | with no home anywhere the run fails with `Tomcat home directory not supplied` after the probes only |
| TomcatStop.TemplateMissingFails | Remote/post_install/tomcat_stop.py:45-47 | with no stop command configured the run fails with `stop_command not configured` after the probes only |
| TomcatStop.NonStringTemplateFails | Remote/post_install/tomcat_stop.py:49-74 | a stop command that is set but not a string fails with Python's missing-attribute message, and nothing is sent |
| TomcatStop.Record | Remote/post_install/tomcat_stop.py:53-56 | appends the stripped output, then the stripped error output, each only when not blank |
| TomcatStop.Conclude | Remote/post_install/tomcat_stop.py:58-70 | returns the verdict specified for the reply |
| TomcatStop.Send | Remote/post_install/tomcat_stop.py:50-70 | sends exactly the command and returns the specified result |
| TomcatStop.StopKnownHome | Remote/post_install/tomcat_stop.py:45-70 | `run` once the home is known sends exactly the specified commands |
| TomcatStop.Resolve | Remote/post_install/tomcat_stop.py:40-70 | `run` once the system is known returns the specified result |
| TomcatStop.Run | Remote/post_install/tomcat_stop.py:29-74 | `run` sends the probes and exactly the specified commands, and returns the specified result |
| InventoryTool.DefaultPathUnchanged | RemoteAgent/inventory_tool.py:76-77 | tidying the separators of the default path leaves it as it is |
| InventoryTool.PlaceholderMeansDefault | RemoteAgent/inventory_tool.py:71-73 | a blank path, or one starting with a placeholder prefix in any letter case, means the default inventory |
| InventoryTool.AbsoluteKept | RemoteAgent/inventory_tool.py:76-78 | any other absolute path is kept as given, less surrounding whitespace |
| InventoryTool.RelativeSeparators | RemoteAgent/inventory_tool.py:76-77 | any other relative path comes back with every backslash turned into `/` and nothing else changed |
| InventoryTool.Line | RemoteAgent/inventory_tool.py:56-59 | a server's line begins with its name, or `<unnamed>`, followed by ` (` |
| InventoryTool.Entries | RemoteAgent/inventory_tool.py:54-59 | one line per server, in inventory order |
| InventoryTool.SummaryEmptyIff | RemoteAgent/inventory_tool.py:61 | the summary is `No servers defined.` exactly when there are no servers |
| InventoryTool.LineSingle | RemoteAgent/inventory_tool.py:59 | a server whose fields hold no line break gives a one-line entry |
| InventoryTool.SummarySplits | RemoteAgent/inventory_tool.py:61 | with single-line fields, the summary splits at its newlines back into the servers' lines, in order |
| InventoryTool.FailuresDistinct | RemoteAgent/inventory_tool.py:37-52 | a missing file and a file that does not parse both fail, list no servers, name the same load command and give different details |
| InventoryTool.LoadedLists | RemoteAgent/inventory_tool.py:54-68 | a file that loads succeeds, lists its servers in order and summarises them |
| InventoryTool.BuildEntries | RemoteAgent/inventory_tool.py:54-59 | the loop builds exactly one line per server, in order |
| InventoryTool.Run | RemoteAgent/inventory_tool.py:35-68 | `run` returns the specified listing |
| PyFormat.Then | Remote/post_install/tomcat_start.py:119 | text before a formatted part is kept in front of it, and a failure stays the failure |
| PyFormat.FormatValue | Remote/post_install/tomcat_stop.py:49 | a template that is not a string has no `format` and raises; a string template is formatted |
| PyFormat.Escaped | Remote/post_install/tomcat_start.py:119 | doubling the braces never shortens a text |
| PyFormat.ThenThen | Remote/post_install/tomcat_start.py:119 | two texts put in front one after the other are the two joined put in front |
| PyFormat.FormatPlain | Remote/post_install/tomcat_start.py:119 | a template without braces formats to itself |
| PyFormat.FormatField | Remote/post_install/tomcat_stop.py:49 | the keyword's field after brace-free text becomes the value, and formatting carries on after it |
| PyFormat.FormatOnlyField | Remote/pre_install/remote_java_install.py:64 | a template whose one field is the keyword's gives the text around it with the value in its place |
| PyFormat.FormatOtherFieldFails | Remote/post_install/tomcat_stop.py:49-74 | a field naming anything but the keyword raises `KeyError` with its name, or `IndexError` for a positional field |
| PyFormat.FormatLoneCloseFails | Remote/post_install/tomcat_start.py:119 | an undoubled `}` after brace-free text raises |
| PyFormat.FormatEscaped | Remote/post_install/tomcat_start.py:119 | formatting undoes the doubling of every brace, whatever the keyword |
| RemoteExecutor.OsProbes | Remote/remote_executor.py:25-36 | `detect_os` asks `uname` first, and at most one more query |
| RemoteExecutor.DetectedOs | Remote/remote_executor.py:25-36 | the system is Linux exactly when `uname` prints `Linux`, Windows exactly when it does not and the caption query prints something, and unknown otherwise |
| RemoteExecutor.Executor.constructor | Remote/remote_executor.py:4-9 | a new executor keeps its connection settings and has sent nothing |
| RemoteExecutor.Executor.Connect | Remote/remote_executor.py:11-19 | the session is open exactly when connecting raised nothing |
| RemoteExecutor.Executor.Run | Remote/remote_executor.py:21-23 | `run` sends exactly one command and returns the link's reply to it |
| RemoteExecutor.Executor.RunTimed | Remote/post_install/tomcat_start.py:122 | the timed call the start tool intends: one command sent, and either its timeout's message or its reply |
| RemoteExecutor.Executor.DetectOs | Remote/remote_executor.py:25-36 | `detect_os` sends exactly the probes and names the system they show |
| RemoteExecutor.Executor.Close | Remote/remote_executor.py:38-39 | `close` leaves the session closed |
| ChatBot.KeywordTasksNonEmpty | RemoteAgent/chatbot.py:340-348 | a keyword plan always holds a non-empty task list and is not the fall-back plan |
| ChatToolAdapter.ResolvePostInstall | RemoteAgent/dynamic_adapter.py:238-245 | the post-install tools get the `post_install` section when it is a dictionary, else an empty one |
| ChatToolAdapter.ResolveWindowsInstall | RemoteAgent/dynamic_adapter.py:238-245 | the Windows Tomcat installer gets `install.tomcat.windows` when every step is a dictionary, else an empty one |
| DynamicAdapter.CoerceTrue | RemoteAgent/dynamic_adapter.py:255-257 | the text `True` becomes the boolean true |
| DynamicAdapter.CoerceFalse | RemoteAgent/dynamic_adapter.py:258-259 | the text `False` becomes the boolean false |
| DynamicAdapter.SetDefault | RemoteAgent/dynamic_adapter.py:143 | the key is present afterwards, and a dictionary that had it is unchanged |
| RemoteDiskCheck.FiguresJudged | Remote/pre_install/remote_disk_check.py:128-149 | the figures are reported exactly when `float()` reads them, and the check succeeds exactly when they read and the free space reaches the threshold |
| RemoteDiskCheck.WindowsConsistent | Remote/pre_install/remote_disk_check.py:64-106 | the Windows check sends one query, and any figures it reports agree with its verdict |
| RemoteDiskCheck.LinuxConsistent | Remote/pre_install/remote_disk_check.py:108-149 | the Linux check sends one query, and any figures it reports agree with its verdict |
| RemoteDiskCheck.JudgeWindows | Remote/pre_install/remote_disk_check.py:83-106 | the Windows outcome: Success exactly when the payload holds no `ERROR`, its figures read and the free space reaches the threshold |
| RemoteDiskCheck.JudgeFields | Remote/pre_install/remote_disk_check.py:120-149 | the Linux outcome: Success exactly when `df` printed a last line of at least four fields whose figures read and whose free space reaches the threshold |
| RemoteDiskCheck.CheckSettledOn | Remote/pre_install/remote_disk_check.py:50-58 | the branch for the detected system sends exactly the specified commands |
| RemoteDiskCheck.CheckDetected | Remote/pre_install/remote_disk_check.py:36-58 | `run` once the system is known sends exactly the specified commands |
| RemoteRamCheck.WindowsConsistent | Remote/pre_install/remote_ram_check.py:53-87 | any figures the Windows check reports agree with its verdict |
| RemoteRamCheck.LinuxConsistent | Remote/pre_install/remote_ram_check.py:89-115 | any figures the Linux check reports agree with its verdict |
| RemoteRamCheck.JudgeWindows | Remote/pre_install/remote_ram_check.py:67-87 | the Windows outcome: Success exactly when the payload's figures read and the total reaches the threshold |
| RemoteRamCheck.CheckWindows | Remote/pre_install/remote_ram_check.py:53-87 | `_check_windows` sends exactly its query and returns the specified outcome |
| RemoteRamCheck.JudgeLinux | Remote/pre_install/remote_ram_check.py:95-115 | the Linux outcome: Success exactly when the first qualifying `Mem:` line of `free -m` reads and its total reaches the threshold |
| RemoteRamCheck.CheckLinux | Remote/pre_install/remote_ram_check.py:89-115 | `_check_linux` sends exactly `free -m` and returns the specified outcome |
| RemoteRamCheck.CheckDetected | Remote/pre_install/remote_ram_check.py:31-47 | `run` once the system is known sends exactly the specified commands |
| RemotePortCheck.LinuxCheckAt | Remote/pre_install/remote_port_check.py:90-129 | the Linux check is the listing's commands followed by the port report over the listing's lines |
| RemotePortCheck.LinuxVerdictOver | Remote/pre_install/remote_port_check.py:80-129 | over a listing, the Linux check succeeds exactly when no line names a requested port |
| RemotePortCheck.CheckDetected | Remote/pre_install/remote_port_check.py:37-51 | `run` once the system is known sends exactly the specified commands |
| RemotePortCheck.CheckInspectedPorts | Remote/pre_install/remote_port_check.py:39-51 | `run` once the ports are known sends exactly the specified commands |
| RemotePortCheck.CheckPorts | Remote/pre_install/remote_port_check.py:45-51 | the branch for the detected system sends exactly the specified commands |
| RemoteDownload.Fetch | Remote/utilities/remote_download.py:42-99 | sends the download and the size query and returns the specified download |
| RemoteExtract.ExpandOnly | Remote/utilities/remote_extract.py:41-92 | sends only the expansion and returns the specified extraction |
| RemoteExtract.ExpandAndDetect | Remote/utilities/remote_extract.py:41-92 | sends the expansion and then the folder query, and returns the specified extraction |
| RemoteExtract.Extract | Remote/utilities/remote_extract.py:41-92 | sends the folder query only when a pattern is given, and returns the specified extraction |
| RemoteJavaInstall.MissingConfig | Remote/pre_install/remote_java_install.py:218-226 | a missing setting fails with the tool's own name as command and no output |
| RemoteJavaInstall.ExceptionResult | Remote/pre_install/remote_java_install.py:214-216 | an exception fails the run |
| RemoteJavaInstall.AlreadyInstalled | Remote/pre_install/remote_java_install.py:55-99 | a probe reply that names a version succeeds |
| RemoteJavaInstall.AfterExtraction | Remote/pre_install/remote_java_install.py:147-153 | a failed extraction, or one without a folder, is handed back under the tool's name and nothing more is sent |
| RemoteJavaInstall.WindowsProbed | Remote/pre_install/remote_java_install.py:95-99 | the Windows branch sends its probe first, and a reply naming a version ends the run with success |
| RemoteJavaInstall.InstallLinux | Remote/pre_install/remote_java_install.py:42-77 | the Linux branch sends exactly the specified commands and returns the specified result |
| RemoteJavaInstall.SetEnvironment | Remote/pre_install/remote_java_install.py:168-192 | sends exactly the environment commands and logs what they wrote to stderr |
| RemoteJavaInstall.ContinueAfterExtraction | Remote/pre_install/remote_java_install.py:147-210 | after the extraction, sends exactly the specified commands |
| RemoteJavaInstall.ExtractStage | Remote/pre_install/remote_java_install.py:136-210 | the extraction's commands, then: a failed extraction or one without a folder is handed back renamed with nothing more sent; a `None` pattern ends the run; otherwise the environment and version query follow |
| RemoteJavaInstall.ContinueAfterDownload | Remote/pre_install/remote_java_install.py:120-210 | after the download, sends exactly the specified commands |
| RemoteJavaInstall.DownloadStage | Remote/pre_install/remote_java_install.py:112-210 | the download's commands, then: a failed download is handed back renamed with nothing more sent; otherwise the extraction stage follows |
| RemoteJavaInstall.SetupWindows | Remote/pre_install/remote_java_install.py:101-210 | the Windows installation proper sends exactly the specified commands |
| RemoteJavaInstall.InstallWindows | Remote/pre_install/remote_java_install.py:83-210 | the Windows branch sends exactly the specified commands and returns the specified result |
| RemoteJavaInstall.InstallDetected | Remote/pre_install/remote_java_install.py:41-212 | Linux runs the Linux installation, Windows the Windows one, and any other system fails with `Unknown OS` with nothing more sent |
| RemoteTomcatInstall.MissingConfig | Remote/install/remote_tomcat_install.py:175-177 | fails with `Configuration missing for` the section, no payload and no commands |
| RemoteTomcatInstall.ExceptionFailure | Remote/install/remote_tomcat_install.py:45-47 | an exception fails the run and sends nothing more |
| RemoteTomcatInstall.LinuxPrepare | Remote/install/remote_tomcat_install.py:145-153 | the directory, the download and the expansion: three commands |
| RemoteTomcatInstall.GzipFlag | Remote/install/remote_tomcat_install.py:152 | the gzip expansion starts with `tar -xzf ` |
| RemoteTomcatInstall.PlainFlag | Remote/install/remote_tomcat_install.py:153 | the plain expansion does not |
| RemoteTomcatInstall.AfterDownload | Remote/install/remote_tomcat_install.py:74-78 | a failed download fails with `Download failed` and its result as payload |
| RemoteTomcatInstall.FinishLinux | Remote/install/remote_tomcat_install.py:155-160 | sends the archive removal unless disabled, then the permissions command |
| RemoteTomcatInstall.FinishWindows | Remote/install/remote_tomcat_install.py:99-119 | sends exactly the closing commands and returns the specified result |
| RemoteTomcatInstall.ContinueAfterExtraction | Remote/install/remote_tomcat_install.py:88-119 | after the extraction, sends exactly the specified commands |
| RemoteTomcatInstall.ExtractStage | Remote/install/remote_tomcat_install.py:80-119 | the extraction's commands, then: a failed extraction fails with `Extraction failed` and its result as payload, a blank folder fails, and a found folder is joined to the install root as home before the permissions and cleanup commands |
| RemoteTomcatInstall.ContinueAfterDownload | Remote/install/remote_tomcat_install.py:74-119 | after the download, sends exactly the specified commands |
| RemoteTomcatInstall.DownloadStage | Remote/install/remote_tomcat_install.py:67-119 | the download's commands, then: a failed download fails with `Download failed` and its result as payload with nothing more sent; otherwise the extraction stage follows |
| RemoteTomcatInstall.SetupWindows | Remote/install/remote_tomcat_install.py:62-119 | the Windows installation proper sends exactly the specified commands |
| RemoteTomcatInstall.InstallDetected | Remote/install/remote_tomcat_install.py:36-43 | Windows runs the Windows installation, Linux the Linux one, and any other system fails with `Unsupported OS` with nothing more sent |

## Left out

- RemoteExecutor.Executor.Run: the SSH session (paramiko, authentication, the remote host and its shell) is an oracle `Link` giving the reply to the n-th command; `RunTimed`'s timeouts come from the oracle `timesOut`.
- RemoteExecutor.Executor.RunTimed: `run()` at Remote/remote_executor.py:21 accepts no timeout; this member is the corrected call used by the Tomcat start tool (see Findings).
- RemoteDiskCheck.Run: the remote tools are modelled from their `run` onward. Their constructors pass `user_parameters=` to `RemoteTool.__init__` (Remote/tool_base.py:7), which does not accept it, so as written constructing any of them raises a TypeError; the model assumes the object exists. The same holds for RemoteRamCheck.Run, RemoteJavaInstall.Run, RemoteTomcatInstall.Run, RemoteTomcatUninstall.Run, TomcatStart, TomcatStop and RemotePortCheck.
- DynamicAdapter.Run: building the adapter calls `tool.get_config_path()` (RemoteAgent/dynamic_adapter.py:61), and `get_info` calls `get_user_parameters()` (:68); no class of the repository defines either, so as written the constructor raises an AttributeError. The model takes the configuration path as a parameter and assumes the adapter exists.
- DynamicAdapter.Run: the keyword arguments are built from the whole signature of the tool's `run`, the corrected reading of RemoteAgent/dynamic_adapter.py:165 (see Findings); as written, `[1:]` drops `executor` and every call ends in `Execution error`. The tool itself is an oracle `ToolRun` that may succeed or raise, and the values of the keyword arguments, with their coercion to annotated types, are not passed to it: only which names are passed, and the ValueError or TypeError of binding them, are modelled. The TypeError's text leaves out the class name Python puts before `run()`.
- DynamicAdapter.RunOnServers: uses the corrected binding, as DynamicAdapter.Run does.
- DynamicAdapter.Connect: uses the corrected binding, as DynamicAdapter.Run does; as written every call that connects gives `Execution error` (AsWrittenExecutionError).
- RemoteChatbot: Remote/remote_chatbot.py:5-6 imports `build_dynamic_remote_tools` and `RemoteLangChainChatBot`, which no file of the repository defines; the module's own helpers are modelled as if the import succeeded, and the LangChain agent loop is not modelled.
- RemoteChatbot.NormalizedPortOverride: a dictionary override is refused (None), where Python converts its keys, because Dafny maps have no iteration order.
- RemotePortCheck.IteratedItems: a dictionary `ports` is refused (NotIterable), where Python iterates its keys, for the same reason.
- RemotePortCheck.InspectedPorts: reads a string `ports` through the corrected PortItems, splitting it at commas, where Remote/pre_install/remote_port_check.py:146 iterates its characters (see Findings); a dictionary `ports` is refused, as in IteratedItems.
- RemotePortCheck.Run: the ports it inspects are InspectedPorts', so a string `ports` is read at commas, the corrected reading, and not character by character as written.
- RemotePortCheck.CheckDetected: the same corrected comma reading of a string `ports` as RemotePortCheck.Run.
- RemotePortCheck.CheckInspectedPorts: the same corrected comma reading of a string `ports` as RemotePortCheck.Run.
- RemoteDiskCheck.Run: on Linux it sends and reports the corrected LinuxCommand, `bash -lc '…'` with the whole `df` pipeline quoted, where Remote/pre_install/remote_disk_check.py:117 sends `bash -lc "…"` (see Findings); the command text, including the result's `command` field, therefore differs from the source's for every Linux path.
- RemoteDiskCheck.CheckLinux: sends and reports the corrected LinuxCommand, as RemoteDiskCheck.Run does.
- RemoteDiskCheck.CheckSettledOn: its Linux branch sends the corrected LinuxCommand, as RemoteDiskCheck.Run does.
- RemoteDiskCheck.CheckDetected: its Linux branch sends the corrected LinuxCommand, as RemoteDiskCheck.Run does.
- RemoteJavaInstall.PackageCommands: a non-empty dictionary `packages` is refused with "can only join an iterable", where `" ".join` (Remote/pre_install/remote_java_install.py:61) joins its keys in insertion order, which a Dafny map does not keep.
- RemoteJavaInstall.ExceptionResult: the exception result (Remote/pre_install/remote_java_install.py:216) and the `Unknown OS` result (:212) have only `name`, `status` and `details` in the source; the model's record gives them an empty `command` and `output`.
- WorkflowTool.TargetSet: the targets of a dictionary are its key set; order is not observable there.
- Values.PyInt: `int()` of text accepts optional surrounding whitespace, a sign and ASCII digits only; `_` separators and non-ASCII digits are not modelled.
- Values.PyFloat: `float()` of text accepts a decimal with optional sign and fraction; exponents, `inf` and `nan` are not modelled, and values are exact reals, not doubles.
- Values.PyStr: `str()` of a float, list or dictionary is a marker (`<float>`, `<list>`, `<dict>`) rather than Python's repr. A home, path or folder configured as a non-string is formatted through it, where Python raises on it (`.replace`, `.rstrip`, `shlex.quote` expect a string).
- RemoteDiskCheck.Fixed2: `:.2f` is rounded half away from zero on exact reals; Python rounds the binary double, which can differ on ties.
- TomcatStart.Whole: `:.0f` is rounded half to even on exact reals; the same caveat about doubles applies.
- PyFormat.Format: a field that names the keyword with a conversion, format spec, attribute or index (`{tomcat_home!r}`, `{tomcat_home:>9}`) is treated as a failure, where Python would format it; the text of the error messages is approximate.
- WorkflowRunner.Workflow: the error texts for a missing host or user ("KeyError: 'host'") stand for the exception raised; they are not guaranteed to be Python's `str(exc)`.
- WorkflowRunner.PyGet: calling `.get` on a non-dictionary is reported with a placeholder AttributeError text.
- CheckJava.JavaResult: the outputs of `java -version` and `javac -version` are parameters; the exception branch at Tools/pre_requisit_check/check_java.py:85-92 reads `status`, which is unbound when the program itself fails to start, and is not modelled.
- DynamicAdapter.OverridesOf: override values that are not strings (numbers, lists) are not modelled; a field is either a string or absent.
- InventoryTool.NormalizePath: the controller's paths follow POSIX rules (`os.sep` is `/`, absolute paths start with `/`).
- RemoteTomcatInstall.JoinPath: joins controller paths with POSIX rules, as above.
- Text.Lower: case mapping and the regular-expression classes (`\w`, `\d`, `\s`) are ASCII only.
- Text.IsDigitString: `str.isdigit()` accepts ASCII digits only, where Python also accepts other Unicode digits; this affects CheckPorts.NetstatPid, RemotePortCheck.LastWordPid, RemoteDownload.SizeOfNumber and TomcatStart.DigitPort.
- Logging, printing, timing and the LLM calls of the chat bots are not modelled; they do not affect the returned results.

## Findings

| source | as written | input that shows it | evidently intended | confidence | as-written member | corrected member |
|---|---|---|---|---|---|---|
| Remote/pre_install/remote_port_check.py:146 | `for item in ports` iterates a string argument character by character | `ports="8080,8005"` inspects ports 0, 5 and 8 (each digit is a port; the comma is skipped) | a comma-separated list of ports, as the parameter description at lines 18-22 says | not executed | RemotePortCheck.StringPortsAreDigits | RemotePortCheck.CommaPortsReadBack |
| Remote/pre_install/remote_disk_check.py:116-117 | the shlex-quoted path is placed inside an outer double-quoted `bash -lc "..."` argument, so its single quotes are inert for the outer shell | the path `$X` (or `$(cmd)`) is expanded by the outer shell before `df` sees it | the path reaches `df` literally | not executed | RemoteDiskCheck.AsWrittenExpandsPath | RemoteDiskCheck.LinuxCommandReadsBack |
| Remote/post_install/tomcat_start.py:122 | every call passes `timeout=` to `run()`, whose signature at Remote/remote_executor.py:21 takes only the command | any server that reaches the start command: the call raises a TypeError and the result is Failed | the command runs with the given time limit | not executed | TomcatStart.AsWrittenNeverStarts | TomcatStart.StartStatus |
| RemoteAgent/dynamic_adapter.py:165 | `list(sig.parameters.items())[1:]` skips the first parameter, but the signature of the bound method `tool.run` already leaves out `self` | any remote tool, such as RemoteTomcatInstallTool with `run(self, executor, config)`: `executor` is never passed, `tool.run(**kwargs)` raises a TypeError, and the adapter returns `Execution error` | every parameter of `run` is visited, so `executor` is injected | not executed | DynamicAdapter.AsWrittenExecutionError | DynamicAdapter.FullSignatureBinds |
