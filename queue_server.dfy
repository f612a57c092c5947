/**
 * The queue tool server: exposes the pending-delivery store through the
 * dispatch protocol as three tools and one resource.
 */
module QueueServer {
  import opened Wrappers
  import opened Json
  import opened Protocol
  import opened PendingStore

  function Tools(): seq<Tool> {
    [ Tool("add_pending", "Add episodes to pending queue",
           Schema(map["episodes" := Property("array", "Episodes to add")], ["episodes"])),
      Tool("get_pending", "Get pending episodes", OpenSchema(map[])),
      Tool("remove_processed", "Remove processed episodes from queue",
           Schema(map["episode_ids" := Property("array", "Episode IDs to remove")], ["episode_ids"])) ]
  }

  function Resources(): seq<Resource> {
    [ Resource("queue://pending", "Pending Episodes",
               Some("Episodes waiting to be added to Spotify queue"), Some("application/json")) ]
  }

  /** `{"episodes": pending, "count": len(pending)}`. */
  function Listing(pending: seq<Value>): Value {
    Object(map["episodes" := List(pending), "count" := Int(|pending|)])
  }

  /** The effect of one tool call: its answer, the new pending list, and whether the list is saved. */
  datatype Step = Step(answer: Result<Value, string>, pending: seq<Value>, saves: bool)

  /** `add_pending` with an `episodes` value of any JSON shape. */
  function AddPending(pending: seq<Value>, episodes: Value, addedAt: string): Step {
    match episodes
    case List(items) =>
      var n := ObjectPrefix(items);
      var after := pending + Stamped(items[..n], addedAt);
      if n == |items| then Step(Ok(Object(map["success" := Bool(true), "count" := Int(|items|)])), after, true)
      else Step(Err("episode is not a dictionary"), after, false)
    case Str(s) =>
      // iterating a string yields strings, which have no `copy`
      if s == "" then Step(Ok(Object(map["success" := Bool(true), "count" := Int(0)])), pending, true)
      else Step(Err("'str' object has no attribute 'copy'"), pending, false)
    case Object(f) =>
      // iterating a dictionary yields its keys, which are strings
      if f == map[] then Step(Ok(Object(map["success" := Bool(true), "count" := Int(0)])), pending, true)
      else Step(Err("'str' object has no attribute 'copy'"), pending, false)
    case _ => Step(Err("object is not iterable"), pending, false)
  }

  /** `_execute_tool` as a function of the pending list before the call. */
  function ExecuteSpec(pending: seq<Value>, name: Option<Value>, arguments: Value, addedAt: string): Step {
    if name == Some(Str("add_pending")) then
      match Get(arguments, "episodes")
      case None => Step(Err("'episodes'"), pending, false)
      case Some(episodes) => AddPending(pending, episodes, addedAt)
    else if name == Some(Str("get_pending")) then
      Step(Ok(Listing(pending)), pending, false)
    else if name == Some(Str("remove_processed")) then
      match Get(arguments, "episode_ids")
      case None => Step(Err("'episode_ids'"), pending, false)
      case Some(ids) =>
        if !ids.List? then Step(Err("episode_ids is not a list"), pending, false)
        else if !AllIdentified(pending) then Step(Err("'id'"), pending, false)
        else Step(Ok(Object(map["success" := Bool(true), "removed_count" := Int(|ids.items|)])),
                  Without(pending, ids.items), true)
    else Step(Err("Unknown tool: " + ValueText(name)), pending, false)
  }

  /** `_read_resource`. */
  function ReadSpec(pending: seq<Value>, uri: Option<Value>): Result<Value, string> {
    if uri == Some(Str("queue://pending")) then Ok(Listing(pending))
    else Err("Unknown resource URI: " + ValueText(uri))
  }

  /** Whether `m` is a tool call whose parameters can be read. */
  predicate IsToolCall(m: Message) {
    m.methodName == Some("tools/call") && m.params.Some?
  }

  function CallName(m: Message): Option<Value>
    requires IsToolCall(m)
  {
    Get(Object(m.params.value), "name")
  }

  function CallArguments(m: Message): Value
    requires IsToolCall(m)
  {
    GetOr(Object(m.params.value), "arguments", Object(map[])).value
  }

  /** `handle_request` as a function of the pending list before the request. */
  datatype Handled = Handled(answer: Message, after: seq<Value>, saves: bool)

  function HandleSpec(pending: seq<Value>, m: Message, addedAt: string): Handled {
    var answer := Serve(m, Tools(), Some(Resources()),
                        (n, a) => ExecuteSpec(pending, n, a, addedAt).answer,
                        u => ReadSpec(pending, u));
    if IsToolCall(m) then
      var step := ExecuteSpec(pending, CallName(m), CallArguments(m), addedAt);
      Handled(answer, step.pending, step.saves)
    else Handled(answer, pending, false)
  }

  class QueueMcpServer {
    const manager: QueueManager

    constructor (manager: QueueManager)
      ensures this.manager == manager
    {
      this.manager := manager;
    }

    method ExecuteTool(name: Option<Value>, arguments: Value, addedAt: string, saveOk: bool)
      returns (r: Result<Value, string>)
      modifies manager
      ensures var step := ExecuteSpec(old(manager.pending), name, arguments, addedAt);
        r == step.answer && manager.pending == step.pending
        && FileAfter(step.saves, manager.persisted, old(manager.persisted), step.pending, saveOk)
    {
      if name == Some(Str("add_pending")) {
        var episodes := Get(arguments, "episodes");
        if episodes.None? {
          return Err("'episodes'");
        }
        match episodes.value
        case List(items) => {
          var ok := manager.AddPendingEpisodes(items, addedAt, saveOk);
          if !ok {
            return Err("episode is not a dictionary");
          }
          r := Ok(Object(map["success" := Bool(true), "count" := Int(|items|)]));
        }
        case Str(s) => {
          if s != "" {
            return Err("'str' object has no attribute 'copy'");
          }
          var _ := manager.AddPendingEpisodes([], addedAt, saveOk);
          r := Ok(Object(map["success" := Bool(true), "count" := Int(0)]));
        }
        case Object(f) => {
          if f != map[] {
            return Err("'str' object has no attribute 'copy'");
          }
          var _ := manager.AddPendingEpisodes([], addedAt, saveOk);
          r := Ok(Object(map["success" := Bool(true), "count" := Int(0)]));
        }
        case _ => {
          r := Err("object is not iterable");
        }
      } else if name == Some(Str("get_pending")) {
        r := Ok(Listing(manager.pending));
      } else if name == Some(Str("remove_processed")) {
        var ids := Get(arguments, "episode_ids");
        if ids.None? {
          return Err("'episode_ids'");
        }
        if !ids.value.List? {
          return Err("episode_ids is not a list");
        }
        var ok := manager.RemoveProcessedEpisodes(ids.value.items, saveOk);
        if !ok {
          return Err("'id'");
        }
        r := Ok(Object(map["success" := Bool(true), "removed_count" := Int(|ids.value.items|)]));
      } else {
        r := Err("Unknown tool: " + ValueText(name));
      }
    }

    /** `handle_request`: only a tool call changes the store. */
    method HandleRequest(m: Message, addedAt: string, saveOk: bool) returns (r: Message)
      modifies manager
      ensures var spec := HandleSpec(old(manager.pending), m, addedAt);
        r == spec.answer && manager.pending == spec.after
        && FileAfter(spec.saves, manager.persisted, old(manager.persisted), spec.after, saveOk)
    {
      var before := manager.pending;
      if IsToolCall(m) {
        var result := ExecuteTool(CallName(m), CallArguments(m), addedAt, saveOk);
        r := if result.Ok? then Respond(result.value) else Internal(result.error);
      } else {
        r := Serve(m, Tools(), Some(Resources()),
                   (n, a) => ExecuteSpec(before, n, a, addedAt).answer,
                   u => ReadSpec(before, u));
      }
    }
  }

  /** `tools/list` reports exactly the three registered tools, in registration order. */
  lemma RegisteredTools(pending: seq<Value>, m: Message, addedAt: string)
    requires m.methodName == Some("tools/list")
    ensures ToolNames(Tools()) == ["add_pending", "get_pending", "remove_processed"]
    ensures HandleSpec(pending, m, addedAt).answer == Respond(Object(map["tools" := List(ToolValues(Tools()))]))
  {
  }

  /**
   * `_execute_tool` dispatches on the name alone, and refuses as unknown exactly
   * the names that are not registered; so `call_tool`'s registry check and
   * `handle_request` agree on every name.
   */
  lemma ExecutorMatchesRegistry(pending: seq<Value>, name: string, arguments: Value, addedAt: string)
    ensures ExecuteSpec(pending, Some(Str(name)), arguments, addedAt).answer == Err("Unknown tool: " + name)
            <==> name !in ToolNames(Tools())
    ensures name in ToolNames(Tools()) ==>
            CallTool(Tools(), (n, a) => ExecuteSpec(pending, Some(Str(n)), a, addedAt).answer, name, arguments)
            == Ok(ExecuteSpec(pending, Some(Str(name)), arguments, addedAt).answer)
  {
    assert ToolNames(Tools()) == ["add_pending", "get_pending", "remove_processed"];
    if name in ToolNames(Tools()) {
      KnownToolErrors(pending, name, arguments, addedAt);
    }
  }

  /** A listed tool fails only with its own messages, none of which is the unknown-tool one. */
  lemma KnownToolErrors(pending: seq<Value>, name: string, arguments: Value, addedAt: string)
    requires name in ["add_pending", "get_pending", "remove_processed"]
    ensures ExecuteSpec(pending, Some(Str(name)), arguments, addedAt).answer != Err("Unknown tool: " + name)
  {
    var step := ExecuteSpec(pending, Some(Str(name)), arguments, addedAt);
    var unknown := "Unknown tool: " + name;
    assert unknown[0] == 'U';
    if step.answer.Err? {
      assert step.answer.error in ["'episodes'", "episode is not a dictionary", "'str' object has no attribute 'copy'",
                                   "object is not iterable", "'episode_ids'", "episode_ids is not a list", "'id'"];
      assert step.answer.error[0] != 'U';
    }
  }

  /** Only a tool call can change the store or save it. */
  lemma OnlyToolCallsWrite(pending: seq<Value>, m: Message, addedAt: string)
    requires !IsToolCall(m)
    ensures HandleSpec(pending, m, addedAt).after == pending
    ensures !HandleSpec(pending, m, addedAt).saves
  {
  }

  /**
   * `removed_count` is the number of ids asked for, not the number of entries
   * removed: ids that match no entry leave the store as it was and are still counted.
   */
  lemma RemovedCountIsRequested(pending: seq<Value>, ids: seq<Value>, addedAt: string)
    requires AllIdentified(pending)
    requires forall k :: 0 <= k < |pending| ==> !Listed(pending[k], ids)
    ensures var step := ExecuteSpec(pending, Some(Str("remove_processed")), Object(map["episode_ids" := List(ids)]), addedAt);
      step.pending == pending
      && step.answer == Ok(Object(map["success" := Bool(true), "removed_count" := Int(|ids|)]))
  {
    WithoutUnlisted(pending, ids);
  }

  /** After `add_pending` of dictionaries, `get_pending` lists the old entries followed by the stamped new ones. */
  lemma AddThenGet(pending: seq<Value>, items: seq<Value>, addedAt: string)
    requires forall k :: 0 <= k < |items| ==> items[k].Object?
    ensures var added := ExecuteSpec(pending, Some(Str("add_pending")), Object(map["episodes" := List(items)]), addedAt);
      added.answer == Ok(Object(map["success" := Bool(true), "count" := Int(|items|)]))
      && ExecuteSpec(added.pending, Some(Str("get_pending")), Object(map[]), addedAt).answer
         == Ok(Listing(pending + Stamped(items, addedAt)))
  {
    assert ObjectPrefix(items) == |items|;
    assert items[..|items|] == items;
  }
}
