/**
 * The conversation state of the remote workflow chatbot
 * (RemoteAgent/chatbot.py, class RemoteWorkflowChatBot): the bounded history,
 * the "awaiting server choice" sub-dialogue with its retry counter, and the
 * tolerance rewrite applied to stop results. The language model is an oracle:
 * its replies are uninterpreted functions of what it is shown.
 */
module ChatBot {
  import opened Wrappers
  import opened Text
  import opened Values
  import opened Sequences
  import opened ChatRouting

  datatype Message = Human(content: string) | Ai(content: string)

  /**
   * The language model and the tool layer behind it. `askSelection` writes the
   * numbered server prompt for a request; `planAndExecute` plans a request for
   * the selected servers, runs the tools and summarises the outcome.
   */
  datatype Oracle = Oracle(
    askSelection: (string, seq<Dict>, seq<Message>) -> string,
    planAndExecute: (string, string, seq<Dict>, seq<Message>) -> string)

  /** The fields of a chatbot session. */
  datatype SessionState = SessionState(
    history: seq<Message>,
    awaiting: bool,
    pending: Option<string>,
    presented: Option<seq<Dict>>,
    attempts: nat,
    active: Option<seq<Dict>>)

  const EmptyInputReply := "Please provide a request."
  const NoServersReply :=
    "I could not find any servers in the inventory. Update Remote/config/servers.ini and try again."
  const GiveUpReply :=
    "I was unable to understand the server selection after multiple tries. Please start over with a new request."
  const PreviousTask := "the previous task"

  const Initial := SessionState([], false, None, None, 0, None)

  /** The session invariant: bounded history, and the sub-dialogue fields set together. */
  predicate Valid(st: SessionState)
  {
    |st.history| <= MaxHistoryMessages
    && st.attempts < MaxSelectionAttempts
    && (st.awaiting <==> st.pending.Some?)
    && (st.awaiting <==> st.presented.Some?)
    && (!st.awaiting ==> st.attempts == 0)
  }

  lemma InitialValid()
    ensures Valid(Initial)
  {
  }

  /** `history[-12:]` once the history grows past the bound. */
  function Bounded(history: seq<Message>): (h: seq<Message>)
    ensures |h| <= MaxHistoryMessages
    ensures |h| == if |history| <= MaxHistoryMessages then |history| else MaxHistoryMessages
    ensures h == history[|history| - |h|..]
  {
    if |history| > MaxHistoryMessages then history[|history| - MaxHistoryMessages..] else history
  }

  /** After an append the newest message is last and the rest are the newest of the old ones, in order. */
  lemma AppendKeepsNewest(history: seq<Message>, m: Message)
    ensures var h := Bounded(history + [m]);
      |h| > 0 && h[|h| - 1] == m && h[..|h| - 1] == history[|history| - (|h| - 1)..]
  {
    var all := history + [m];
    var h := Bounded(all);
    assert h == all[|all| - |h|..];
    assert h[..|h| - 1] == all[|all| - |h|..|all| - 1];
  }

  /** `pending_request or default`. */
  function RequestOr(pending: Option<string>, default: string): string
  {
    if pending.Some? && pending.value != [] then pending.value else default
  }

  /** `_reset_selection_state(selection)`. */
  function Reset(st: SessionState, selection: Option<seq<Dict>>): (r: SessionState)
    ensures !r.awaiting && r.pending.None? && r.presented.None? && r.attempts == 0
    ensures r.history == st.history
    ensures r.active == if selection.Some? && selection.value != [] then selection else st.active
  {
    st.(active := if selection.Some? && selection.value != [] then selection else st.active,
        awaiting := false, pending := None, presented := None, attempts := 0)
  }

  /** `_plan_and_execute` followed by the reply being recorded and the selection state reset. */
  function Execute(st: SessionState, request: string, latest: string, selection: seq<Dict>, oracle: Oracle): (string, SessionState)
    requires selection != []
  {
    var response := oracle.planAndExecute(request, latest, selection, st.history);
    (response, Reset(st.(active := Some(selection), history := Bounded(st.history + [Ai(response)])), Some(selection)))
  }

  /** `_handle_selection_retry(presented)`. */
  function Retry(st: SessionState, presented: seq<Dict>, oracle: Oracle): (string, SessionState)
  {
    var attempts := st.attempts + 1;
    if attempts >= MaxSelectionAttempts then
      var cleared := Reset(st.(attempts := attempts), None);
      (GiveUpReply, cleared.(history := Bounded(cleared.history + [Ai(GiveUpReply)])))
    else
      var prompt := oracle.askSelection(RequestOr(st.pending, PreviousTask), presented, st.history);
      (prompt, st.(attempts := attempts, history := Bounded(st.history + [Ai(prompt)])))
  }

  /** The servers a reply is matched against: those presented, or the inventory. */
  function Presented(st: SessionState, servers: seq<Dict>): seq<Dict>
  {
    if st.presented.Some? && st.presented.value != [] then st.presented.value else servers
  }

  /** The `awaiting_server_choice` branch of `chat`, after the input was recorded. */
  function ChoiceStep(st: SessionState, text: string, servers: seq<Dict>, oracle: Oracle): (string, SessionState)
  {
    var presented := Presented(st, servers);
    var selection := SelectionOf(text, presented);
    if selection != [] then Execute(st, RequestOr(st.pending, text), text, selection, oracle)
    else Retry(st, presented, oracle)
  }

  /** The servers a new request is routed to: those it names, else the active ones that are still listed. */
  function RouteSelection(st: SessionState, text: string, servers: seq<Dict>): seq<Dict>
  {
    var detected := DetectedServers(text, servers);
    if detected != [] then detected else ActiveMatches(st.active, servers)
  }

  /** The routing branch once the selection is known: run it, else the only server, else ask. */
  function RouteWith(st: SessionState, text: string, servers: seq<Dict>, selection: seq<Dict>, oracle: Oracle): (string, SessionState)
    requires servers != []
  {
    if selection != [] then Execute(st, text, text, selection, oracle)
    else if |servers| == 1 then Execute(st, text, text, [servers[0]], oracle)
    else
      var prompt := oracle.askSelection(text, servers, st.history);
      (prompt, st.(awaiting := true, pending := Some(text), presented := Some(servers), attempts := 0,
                   history := Bounded(st.history + [Ai(prompt)])))
  }

  /** The routing branch of `chat`: servers named, else the active ones, else the only one, else ask. */
  function RouteStep(st: SessionState, text: string, servers: seq<Dict>, oracle: Oracle): (string, SessionState)
    requires servers != []
  {
    RouteWith(st, text, servers, RouteSelection(st, text, servers), oracle)
  }

  /** One turn of `chat(user_input)`: the reply and the new session state. */
  function ChatStep(st: SessionState, userInput: string, servers: seq<Dict>, oracle: Oracle): (string, SessionState)
  {
    var text := Strip(userInput);
    if text == [] then (EmptyInputReply, st)
    else
      var asked := st.(history := Bounded(st.history + [Human(text)]));
      if servers == [] then
        (NoServersReply, asked.(history := Bounded(asked.history + [Ai(NoServersReply)])))
      else if st.awaiting then ChoiceStep(asked, text, servers, oracle)
      else RouteStep(asked, text, servers, oracle)
  }

  /** Blank input is answered at once and changes nothing. */
  lemma BlankInputChangesNothing(st: SessionState, userInput: string, servers: seq<Dict>, oracle: Oracle)
    requires IsBlank(userInput)
    ensures ChatStep(st, userInput, servers, oracle) == (EmptyInputReply, st)
  {
  }

  /** Several servers and none named: the bot asks, remembering the request and the options. */
  lemma AmbiguousRequestAsks(st: SessionState, userInput: string, servers: seq<Dict>, oracle: Oracle)
    requires !IsBlank(userInput) && !st.awaiting && |servers| > 1
    requires DetectedServers(Strip(userInput), servers) == [] && ActiveMatches(st.active, servers) == []
    ensures var r := ChatStep(st, userInput, servers, oracle).1;
      r.awaiting && r.pending == Some(Strip(userInput)) && r.presented == Some(servers) && r.attempts == 0
      && r.active == st.active
  {
  }

  /** A reply that selects nothing, short of the limit, counts one more attempt and keeps waiting. */
  lemma FailedReplyCounts(st: SessionState, userInput: string, servers: seq<Dict>, oracle: Oracle)
    requires !IsBlank(userInput) && st.awaiting && servers != []
    requires SelectionOf(Strip(userInput), Presented(st, servers)) == []
    requires st.attempts + 1 < MaxSelectionAttempts
    ensures var r := ChatStep(st, userInput, servers, oracle).1;
      r.awaiting && r.attempts == st.attempts + 1 && r.pending == st.pending && r.presented == st.presented
  {
    var text := Strip(userInput);
    var asked := st.(history := Bounded(st.history + [Human(text)]));
    var presented := Presented(st, servers);
    assert Presented(asked, servers) == presented;
    assert ChatStep(st, userInput, servers, oracle) == ChoiceStep(asked, text, servers, oracle);
    assert ChoiceStep(asked, text, servers, oracle) == Retry(asked, presented, oracle);
    RetryCounts(asked, presented, oracle);
  }

  /** A retry short of the limit only counts the attempt and adds the prompt to the history. */
  lemma RetryCounts(st: SessionState, presented: seq<Dict>, oracle: Oracle)
    requires st.attempts + 1 < MaxSelectionAttempts
    ensures var r := Retry(st, presented, oracle).1;
      r == st.(attempts := st.attempts + 1, history := r.history)
  {
  }

  /** The failed reply that reaches the limit gives up and clears the whole sub-dialogue. */
  lemma LastFailedReplyGivesUp(st: SessionState, userInput: string, servers: seq<Dict>, oracle: Oracle)
    requires !IsBlank(userInput) && st.awaiting && servers != []
    requires SelectionOf(Strip(userInput), Presented(st, servers)) == []
    requires st.attempts + 1 >= MaxSelectionAttempts
    ensures var (reply, r) := ChatStep(st, userInput, servers, oracle);
      reply == GiveUpReply && !r.awaiting && r.pending.None? && r.presented.None? && r.attempts == 0
      && r.active == st.active
  {
  }

  /** A reply that selects servers runs the pending request on them and makes them the active servers. */
  lemma SelectionRunsPending(st: SessionState, userInput: string, servers: seq<Dict>, oracle: Oracle)
    requires !IsBlank(userInput) && st.awaiting && servers != []
    requires SelectionOf(Strip(userInput), Presented(st, servers)) != []
    ensures var selection := SelectionOf(Strip(userInput), Presented(st, servers));
      var (reply, r) := ChatStep(st, userInput, servers, oracle);
      reply == oracle.planAndExecute(RequestOr(st.pending, Strip(userInput)), Strip(userInput), selection,
                                     Bounded(st.history + [Human(Strip(userInput))]))
      && r.active == Some(selection) && !r.awaiting && r.attempts == 0
  {
  }

  lemma ExecuteValid(st: SessionState, request: string, latest: string, selection: seq<Dict>, oracle: Oracle)
    requires selection != []
    ensures Valid(Execute(st, request, latest, selection, oracle).1)
  {
  }

  lemma RetryValid(st: SessionState, presented: seq<Dict>, oracle: Oracle)
    requires Valid(st) && st.awaiting
    ensures Valid(Retry(st, presented, oracle).1)
  {
  }

  /** Every turn keeps the session invariant. */
  lemma ChatStepValid(st: SessionState, userInput: string, servers: seq<Dict>, oracle: Oracle)
    requires Valid(st)
    ensures Valid(ChatStep(st, userInput, servers, oracle).1)
  {
    var text := Strip(userInput);
    if text != [] && servers != [] {
      var asked := st.(history := Bounded(st.history + [Human(text)]));
      if st.awaiting {
        var presented := Presented(asked, servers);
        var selection := SelectionOf(text, presented);
        if selection != [] {
          ExecuteValid(asked, RequestOr(st.pending, text), text, selection, oracle);
        } else {
          RetryValid(asked, presented, oracle);
        }
      } else {
        var selection := RouteSelection(asked, text, servers);
        if selection != [] {
          ExecuteValid(asked, text, text, selection, oracle);
        } else if |servers| == 1 {
          ExecuteValid(asked, text, text, [servers[0]], oracle);
        }
      }
    }
  }

  /** A chatbot session; its fields are those `chat` reads and updates. */
  class RemoteWorkflowChatBot {
    const oracle: Oracle
    var history: seq<Message>
    var awaitingServerChoice: bool
    var pendingRequest: Option<string>
    var presentedServers: Option<seq<Dict>>
    var selectionAttempts: nat
    var activeServers: Option<seq<Dict>>

    function State(): SessionState
      reads this
    {
      SessionState(history, awaitingServerChoice, pendingRequest, presentedServers, selectionAttempts, activeServers)
    }

    constructor(oracle: Oracle)
      ensures this.oracle == oracle && State() == Initial
    {
      this.oracle := oracle;
      history := [];
      awaitingServerChoice := false;
      pendingRequest := None;
      presentedServers := None;
      selectionAttempts := 0;
      activeServers := None;
    }

    /** `_append_history(role, content)`. */
    method AppendHistory(m: Message)
      modifies this`history
      ensures history == Bounded(old(history) + [m])
    {
      history := history + [m];
      if |history| > MaxHistoryMessages {
        history := history[|history| - MaxHistoryMessages..];
      }
    }

    /** `_reset_selection_state(selection)`. */
    method ResetSelectionState(selection: Option<seq<Dict>>)
      modifies this
      ensures State() == Reset(old(State()), selection)
    {
      if selection.Some? && selection.value != [] {
        activeServers := selection;
      }
      awaitingServerChoice := false;
      pendingRequest := None;
      presentedServers := None;
      selectionAttempts := 0;
    }

    /** `_plan_and_execute`: the oracle's summary; the selection becomes the active servers. */
    method PlanAndExecute(request: string, latest: string, selection: seq<Dict>) returns (response: string)
      modifies this`activeServers
      ensures response == oracle.planAndExecute(request, latest, selection, history)
      ensures activeServers == Some(selection)
    {
      response := oracle.planAndExecute(request, latest, selection, history);
      activeServers := Some(selection);
    }

    /** Runs a selection, records the reply and resets the selection state. */
    method ExecuteSelection(request: string, latest: string, selection: seq<Dict>) returns (response: string)
      requires selection != []
      modifies this
      ensures (response, State()) == Execute(old(State()), request, latest, selection, oracle)
    {
      response := PlanAndExecute(request, latest, selection);
      AppendHistory(Ai(response));
      ResetSelectionState(Some(selection));
    }

    /** `_handle_selection_retry(servers)`. */
    method HandleSelectionRetry(presented: seq<Dict>) returns (reply: string)
      modifies this
      ensures (reply, State()) == Retry(old(State()), presented, oracle)
    {
      selectionAttempts := selectionAttempts + 1;
      if selectionAttempts >= MaxSelectionAttempts {
        reply := GiveUpReply;
        ResetSelectionState(None);
        AppendHistory(Ai(reply));
        return;
      }
      var request := RequestOr(pendingRequest, PreviousTask);
      reply := oracle.askSelection(request, presented, history);
      AppendHistory(Ai(reply));
    }

    /** The `awaiting_server_choice` branch of `chat`. */
    method ReplyToChoice(text: string, servers: seq<Dict>) returns (reply: string)
      modifies this
      ensures (reply, State()) == ChoiceStep(old(State()), text, servers, oracle)
    {
      var presented := if presentedServers.Some? && presentedServers.value != [] then presentedServers.value else servers;
      var selection := ParseServerSelection(text, presented);
      if selection != [] {
        reply := ExecuteSelection(RequestOr(pendingRequest, text), text, selection);
        return;
      }
      reply := HandleSelectionRetry(presented);
    }

    /** The routing branch of `chat` for a new request. */
    method RouteRequest(text: string, servers: seq<Dict>) returns (reply: string)
      requires servers != []
      modifies this
      ensures (reply, State()) == RouteStep(old(State()), text, servers, oracle)
    {
      var selection := ChooseServers(text, servers);
      reply := RouteSelected(text, servers, selection);
    }

    /** The servers named in the request, else the active servers still listed. */
    method ChooseServers(text: string, servers: seq<Dict>) returns (selection: seq<Dict>)
      ensures selection == RouteSelection(State(), text, servers)
    {
      selection := DetectServersInText(text, servers);
      if selection == [] {
        selection := ActiveMatches(activeServers, servers);
      }
    }

    /** Runs the chosen servers, or the only one, or asks which to use. */
    method RouteSelected(text: string, servers: seq<Dict>, selection: seq<Dict>) returns (reply: string)
      requires servers != []
      modifies this
      ensures (reply, State()) == RouteWith(old(State()), text, servers, selection, oracle)
    {
      if selection != [] {
        reply := ExecuteSelection(text, text, selection);
      } else if |servers| == 1 {
        reply := ExecuteSelection(text, text, [servers[0]]);
      } else {
        awaitingServerChoice := true;
        pendingRequest := Some(text);
        presentedServers := Some(servers);
        selectionAttempts := 0;
        reply := oracle.askSelection(text, servers, history);
        AppendHistory(Ai(reply));
      }
    }

    /** `chat(user_input)` against the given server inventory. */
    method Chat(userInput: string, servers: seq<Dict>) returns (reply: string)
      modifies this
      ensures (reply, State()) == ChatStep(old(State()), userInput, servers, oracle)
    {
      var text := Strip(userInput);
      if text == [] {
        return EmptyInputReply;
      }
      AppendHistory(Human(text));
      if servers == [] {
        reply := NoServersReply;
        AppendHistory(Ai(reply));
        return;
      }
      if awaitingServerChoice {
        reply := ReplyToChoice(text, servers);
      } else {
        reply := RouteRequest(text, servers);
      }
    }
  }

  // ---------------------------------------------------------------------------
  // Result post-processing and the fall-back plan

  const StopTool := "remote_tomcat_stop"
  const ToleratedPhrases: seq<string> := ["connection refused", "not running", "not listening", "already stopped"]

  /** A failed stop whose details say the server was already down. */
  predicate Tolerated(details: string)
  {
    exists k :: 0 <= k < |ToleratedPhrases| && Contains(details, ToleratedPhrases[k])
  }

  /**
   * `_post_process_result(tool_name, result)`. A failed stop result whose
   * details are a truthy non-string makes `.lower()` raise; that is the failure.
   */
  function PostProcessResult(toolName: string, result: Dict): (r: Result<Dict>)
    ensures r.Failure? ==> toolName == StopTool && Get(result, "status") == VStr("Failed")
    ensures r.Success? ==> r.value == result || r.value == result["status" := VStr("Skipped")]
    ensures r.Success? && r.value != result ==>
      toolName == StopTool && Get(result, "status") == VStr("Failed")
      && "details" in result && result["details"].VStr? && Tolerated(Lower(result["details"].s))
    ensures toolName == StopTool && Get(result, "status") == VStr("Failed")
      && "details" in result && result["details"].VStr? && Tolerated(Lower(result["details"].s))
      ==> r == Success(result["status" := VStr("Skipped")])
    ensures r.Failure? <==>
      toolName == StopTool && Get(result, "status") == VStr("Failed") && !Or(Get(result, "details"), VStr("")).VStr?
    ensures r.Failure? ==> r.error == "'" + TypeName(Get(result, "details")) + "' object has no attribute 'lower'"
  {
    if toolName == StopTool && Get(result, "status") == VStr("Failed") then
      var details := Or(Get(result, "details"), VStr(""));
      if !details.VStr? then Failure("'" + TypeName(details) + "' object has no attribute 'lower'")
      else if Tolerated(Lower(details.s)) then
        var updated := result["status" := VStr("Skipped")];
        Success(if "details" in updated then updated else updated["details" := VStr("Tomcat already stopped; skipping shutdown.")])
      else Success(result)
    else Success(result)
  }

  /** The fallback of `_default_plan`: the whole workflow on every server. */
  const FallbackPlan := VDict(map[
    "tasks" := VList([VDict(map["tool" := VStr("remote_workflow"), "server" := VStr("all"), "params" := VDict(map[])])]),
    "notes" := VStr("Generated fallback plan")])

  /** `_default_plan(request, identifiers)`: the keyword plan, else the fallback. */
  function DefaultPlan(request: string): (plan: Value)
    ensures plan.VDict? && "tasks" in plan.fields && plan.fields["tasks"].VList? && plan.fields["tasks"].items != []
    ensures KeywordPlanOf(request).None? <==> plan == FallbackPlan
  {
    match KeywordPlanOf(request)
    case Some(p) => (KeywordTasksNonEmpty(request); p)
    case None => FallbackPlan
  }

  lemma KeywordTasksNonEmpty(request: string)
    requires KeywordPlanOf(request).Some?
    ensures var p := KeywordPlanOf(request).value;
      p.VDict? && "tasks" in p.fields && p.fields["tasks"].VList? && p.fields["tasks"].items != []
      && p != FallbackPlan
  {
    var p := KeywordPlanOf(request).value;
    assert p.fields["notes"] == VStr("keyword-plan");
    assert FallbackPlan.fields["notes"] == VStr("Generated fallback plan");
    assert "keyword-plan"[0] != "Generated fallback plan"[0];
  }
}
