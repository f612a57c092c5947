/**
 * The music-service tool server: podcast search, show episodes, queueing,
 * devices and playback, and three read-only resources, served through the
 * dispatch protocol.
 */
module SpotifyServer {
  import opened Wrappers
  import opened Json
  import opened Protocol

  /**
   * The music-service client underneath, as an oracle: None where the call
   * raises. `getDevices` and `startPlayback` stand for methods the server
   * calls but the client in spotify_client.py does not define; with that
   * client they always raise.
   */
  datatype SpotifyClient = SpotifyClient(
    searchPodcast: (Value, Value) -> Option<Value>,
    showEpisodes: (Value, Value) -> Option<Value>,
    addToQueue: Value -> Option<bool>,
    getDevices: Option<Value>,
    startPlayback: Value -> Option<bool>,
    profile: Option<Value>,
    recentlyPlayed: Option<Value>)

  function Tools(): seq<Tool> {
    [ Tool("search_podcasts", "Search for podcasts by query",
           Schema(map["query" := Property("string", "Search query"),
                      "limit" := Object(map["type" := Str("integer"), "default" := Int(5)])], ["query"])),
      Tool("get_show_episodes", "Get episodes for a specific show",
           Schema(map["show_id" := Property("string", "Spotify show ID"),
                      "limit" := Object(map["type" := Str("integer"), "default" := Int(10)])], ["show_id"])),
      Tool("add_to_queue", "Add episode to playback queue",
           Schema(map["episode_uri" := Property("string", "Spotify episode URI")], ["episode_uri"])),
      Tool("get_devices", "Get available Spotify devices", OpenSchema(map[])),
      Tool("start_playback", "Start playback on a device",
           OpenSchema(map["device_id" := Property("string", "Device ID (optional)")])) ]
  }

  function Resources(): seq<Resource> {
    [ Resource("spotify://user/profile", "User Profile", Some("Current user's Spotify profile"), Some("application/json")),
      Resource("spotify://devices", "Devices", Some("Available Spotify devices"), Some("application/json")),
      Resource("spotify://user/recently_played", "Recently Played", Some("Recently played tracks and episodes"), Some("application/json")) ]
  }

  const NoDevices: string := "'SpotifyClient' object has no attribute 'get_devices'"

  function Answer(v: Option<Value>, failure: string): Result<Value, string> {
    if v.Some? then Ok(v.value) else Err(failure)
  }

  function Success(b: Option<bool>, failure: string): Result<Value, string> {
    if b.Some? then Ok(Object(map["success" := Bool(b.value)])) else Err(failure)
  }

  /** `_execute_tool`; `limit` defaults to 5 for a search and to 10 for a show's episodes. */
  function Execute(client: SpotifyClient, name: Option<Value>, arguments: Value): Result<Value, string> {
    if name == Some(Str("search_podcasts")) then
      match Get(arguments, "query")
      case None => Err("'query'")
      case Some(query) => Answer(client.searchPodcast(query, GetOr(arguments, "limit", Int(5)).value), "search failed")
    else if name == Some(Str("get_show_episodes")) then
      match Get(arguments, "show_id")
      case None => Err("'show_id'")
      case Some(showId) => Answer(client.showEpisodes(showId, GetOr(arguments, "limit", Int(10)).value), "episode lookup failed")
    else if name == Some(Str("add_to_queue")) then
      match Get(arguments, "episode_uri")
      case None => Err("'episode_uri'")
      case Some(uri) => Success(client.addToQueue(uri), "queueing failed")
    else if name == Some(Str("get_devices")) then
      Answer(client.getDevices, NoDevices)
    else if name == Some(Str("start_playback")) then
      match GetOr(arguments, "device_id", Null)
      case None => Err("arguments have no attribute 'get'")
      case Some(device) => Success(client.startPlayback(device), "playback failed")
    else Err("Unknown tool: " + ValueText(name))
  }

  /** `_read_resource`; recently played items are wrapped as `{"items": ...}`. */
  function Read(client: SpotifyClient, uri: Option<Value>): Result<Value, string> {
    if uri == Some(Str("spotify://user/profile")) then Answer(client.profile, "profile lookup failed")
    else if uri == Some(Str("spotify://devices")) then Answer(client.getDevices, NoDevices)
    else if uri == Some(Str("spotify://user/recently_played")) then
      match client.recentlyPlayed
      case None => Err("history lookup failed")
      case Some(items) => Ok(Object(map["items" := items]))
    else Err("Unknown resource URI: " + ValueText(uri))
  }

  function HandleRequest(client: SpotifyClient, m: Message): Message {
    Serve(m, Tools(), Some(Resources()), (n, a) => Execute(client, n, a), u => Read(client, u))
  }

  function ToolCall(name: string, arguments: map<string, Value>): Message {
    Envelope("tools/call", Some(map["name" := Str(name), "arguments" := Object(arguments)]))
  }

  /** A search or an episode lookup without a limit uses the documented defaults. */
  lemma DefaultLimits(client: SpotifyClient, query: Value, showId: Value)
    ensures Execute(client, Some(Str("search_podcasts")), Object(map["query" := query]))
            == Answer(client.searchPodcast(query, Int(5)), "search failed")
    ensures Execute(client, Some(Str("get_show_episodes")), Object(map["show_id" := showId]))
            == Answer(client.showEpisodes(showId, Int(10)), "episode lookup failed")
  {
  }

  /**
   * Without a device listing in the client, asking for devices through the
   * protocol always raises at the caller, whatever the arguments.
   */
  lemma DevicesNeedClientSupport(client: SpotifyClient, arguments: map<string, Value>)
    requires client.getDevices.None?
    ensures Unwrap(HandleRequest(client, ToolCall("get_devices", arguments))).Err?
    ensures ErrorCode(HandleRequest(client, ToolCall("get_devices", arguments))) == Some(InternalError)
  {
  }

  /** Queueing an episode answers `{"success": b}` with the client's own answer. */
  lemma QueueAnswer(client: SpotifyClient, uri: Value)
    ensures var r := Unwrap(HandleRequest(client, ToolCall("add_to_queue", map["episode_uri" := uri])));
      match client.addToQueue(uri)
      case None => r.Err?
      case Some(b) => r == Ok(Object(map["success" := Bool(b)]))
  {
  }

  /** The executor refuses as unknown exactly the names that are not registered. */
  lemma ExecutorMatchesRegistry(client: SpotifyClient, name: string, arguments: Value)
    ensures ToolNames(Tools()) == ["search_podcasts", "get_show_episodes", "add_to_queue", "get_devices", "start_playback"]
    ensures Execute(client, Some(Str(name)), arguments) == Err("Unknown tool: " + name)
            <==> name !in ToolNames(Tools())
  {
    assert ToolNames(Tools()) == ["search_podcasts", "get_show_episodes", "add_to_queue", "get_devices", "start_playback"];
    var unknown := "Unknown tool: " + name;
    assert unknown[0] == 'U';
    if name in ToolNames(Tools()) {
      KnownToolErrors(client, name, arguments);
    }
  }

  /** A listed tool fails only with its own messages, none of which is the unknown-tool one. */
  lemma KnownToolErrors(client: SpotifyClient, name: string, arguments: Value)
    requires name in ["search_podcasts", "get_show_episodes", "add_to_queue", "get_devices", "start_playback"]
    ensures Execute(client, Some(Str(name)), arguments) != Err("Unknown tool: " + name)
  {
    var r := Execute(client, Some(Str(name)), arguments);
    var unknown := "Unknown tool: " + name;
    assert unknown[0] == 'U';
    if name == "get_devices" {
      assert NoDevices != "Unknown tool: get_devices";
    } else if r.Err? {
      assert r.error in ["'query'", "search failed", "'show_id'", "episode lookup failed", "'episode_uri'", "queueing failed",
                         "arguments have no attribute 'get'", "playback failed"];
      assert r.error[0] != 'U';
    }
  }
}
