/**
 * The language-model tool server: relevance evaluation and summaries, served
 * through the dispatch protocol. It registers tools only, no resources.
 */
module LlmServer {
  import opened Wrappers
  import opened Json
  import opened Protocol

  /**
   * The language-model agent underneath, as an oracle: None where its call
   * raises.
   */
  datatype LlmAgent = LlmAgent(
    evaluate: (Value, Value) -> Option<(real, string)>,
    summarize: Value -> Option<string>)

  function Tools(): seq<Tool> {
    [ Tool("evaluate_episode", "Evaluate episode relevance against user preferences",
           Schema(map["episode" := Property("object", "Episode data"),
                      "preferences" := Property("array", "User preferences")], ["episode", "preferences"])),
      Tool("generate_summary", "Generate episode summary",
           Schema(map["episode" := Property("object", "Episode data")], ["episode"])) ]
  }

  /** `list_resources`: this server offers none. */
  function ListResources(): seq<Resource> { [] }

  /** `_execute_tool`. */
  function Execute(agent: LlmAgent, name: Option<Value>, arguments: Value): Result<Value, string> {
    if name == Some(Str("evaluate_episode")) then
      match (Get(arguments, "episode"), Get(arguments, "preferences"))
      case (None, _) => Err("'episode'")
      case (_, None) => Err("'preferences'")
      case (Some(episode), Some(preferences)) =>
        match agent.evaluate(episode, preferences)
        case None => Err("evaluation failed")
        case Some(verdict) => Ok(Object(map["relevance_score" := Real(verdict.0), "reasoning" := Str(verdict.1)]))
    else if name == Some(Str("generate_summary")) then
      match Get(arguments, "episode")
      case None => Err("'episode'")
      case Some(episode) =>
        match agent.summarize(episode)
        case None => Err("summary failed")
        case Some(summary) => Ok(Object(map["summary" := Str(summary)]))
    else Err("Unknown tool: " + ValueText(name))
  }

  /** `handle_request`: the shared dispatch, without the resource methods. */
  function HandleRequest(agent: LlmAgent, m: Message): Message {
    Serve(m, Tools(), None, (n, a) => Execute(agent, n, a), u => Err("no resources"))
  }

  /** The request the orchestrator sends to evaluate one episode. */
  function EvaluateRequest(episode: Value, preferences: Value): Message {
    Envelope("tools/call", Some(map["name" := Str("evaluate_episode"),
                                    "arguments" := Object(map["episode" := episode, "preferences" := preferences])]))
  }

  /**
   * Asking through the protocol returns the agent's verdict as
   * `{relevance_score, reasoning}`, and raises exactly when the agent does.
   */
  lemma EvaluateThroughProtocol(agent: LlmAgent, episode: Value, preferences: Value)
    ensures var r := Unwrap(HandleRequest(agent, EvaluateRequest(episode, preferences)));
      match agent.evaluate(episode, preferences)
      case None => r.Err? && r.error.McpError? && r.error.error["code"] == Int(InternalError)
      case Some(v) => r == Ok(Object(map["relevance_score" := Real(v.0), "reasoning" := Str(v.1)]))
  {
  }

  /** The resource methods are not implemented here: both answer -32601. */
  lemma NoResourceMethods(agent: LlmAgent, m: Message)
    requires m.methodName in {Some("resources/list"), Some("resources/read")}
    ensures HandleRequest(agent, m) == UnknownMethod(m.methodName)
    ensures ErrorCode(HandleRequest(agent, m)) == Some(MethodNotFound)
  {
    ServeAnswers(m, Tools(), None, (n, a) => Execute(agent, n, a), u => Err("no resources"));
  }

  /** The executor refuses as unknown exactly the names that are not registered. */
  lemma ExecutorMatchesRegistry(agent: LlmAgent, name: string, arguments: Value)
    ensures ToolNames(Tools()) == ["evaluate_episode", "generate_summary"]
    ensures Execute(agent, Some(Str(name)), arguments) == Err("Unknown tool: " + name)
            <==> name !in ToolNames(Tools())
  {
    assert ToolNames(Tools()) == ["evaluate_episode", "generate_summary"];
    var unknown := "Unknown tool: " + name;
    assert unknown[0] == 'U';
    var r := Execute(agent, Some(Str(name)), arguments);
    if name in ToolNames(Tools()) {
      assert r.Err? ==> |r.error| > 0 && r.error[0] != 'U';
    }
  }
}
