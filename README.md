# Podcast agent: a verified model

This project models the core of a podcast agent. The agent finds new Spotify
podcast episodes that match a listener's preferences. A language-model judge
decides which episodes are relevant. The agent then queues them on the
listener's active playback device. When there is no active device, it parks
them in a file-backed pending store and delivers them on a later run.

In the program, the agent reaches Spotify, the judge, the pending store,
e-mail and a listening calendar through small in-process "tool servers".
These speak a request/response envelope with the JSON-RPC 2.0 error codes:
-32601 for an unknown method and -32603 for an internal error (section 5.1 of
the JSON-RPC 2.0 Specification). The model keeps the two sides apart. The
servers and the envelope are modelled and proved on their own. The agents call
the oracles (`McpAgent.World`) and the pending store directly. The server
lemmas (`Protocol.CallThroughEnvelope`, `LlmServer.EvaluateThroughProtocol`,
`SpotifyServer.QueueAnswer`, `QueueServer.AddThenGet`) state what a call
through a server gives back.

## The modules

**Shared foundations**
- `Wrappers`: `Option` and `Result`.
- `Json`: the JSON values every dictionary crossing a server boundary is made of.
- `Text`: Python's `str.split`, `str.lower`, `int()` and digit rendering on `seq<char>`.
- `Sorting`: Python's stable `list.sort`. It is an insertion sort under an ordering relation, proved ordered, a permutation of its input and stable.

**Protocol and servers**
- `Protocol`: the envelope, the tool and resource descriptors, the `handle_request` routing all servers share (`Serve`), `call_tool`, and the `Client` class with its name→server map.
- `PendingStore`: the `QueueManager` class. It holds the in-memory list and a ghost snapshot of what the backing file holds.
- `QueueServer`: the tool server over the pending store, as a class that changes the store.
- `LlmServer`, `SpotifyServer`, `EmailServer`: servers over oracles. The judge, the Spotify client and the SMTP account are total functions that answer `None` where the call raises.

**Configuration and episodes**
- `Config`: `PodcastPreference`, its `__str__`, and `AgentConfig` with its defaults.
- `Episodes`: the episode records and their JSON encoding.

**The agents**
- `Discovery`: the evaluate-and-filter scan of the MCP agents as recursive functions over preferences and catalogue items. It covers the dedup set, duration filter, judge, threshold and per-run cap. A `Scan` records the processed ids and the accepted episodes.
- `Delivery`: the device check, the fate of each episode offered to the queue (queued, sent back to pending, dropped), and redelivery from the pending store.
- `McpAgent`: the `PodcastAgent` class. It models the MCP agent and its e-mail-capable variant; the `enhanced` constant selects the variant's extra steps. Its methods are loops proved against the `Discovery` and `Delivery` functions.
- `LegacyAgent`: the original agent, which calls Spotify directly. It has its own failure handling and no pending fallback.

**Beside the pipeline**
- `Calendar`: the calendar server's time arithmetic, gap finder, time quality, adherence rate, schedule listing and slot search, and the server as a class over its schedule.
- `Api`: the validate-then-apply logic of the two HTTP APIs' configuration, e-mail and preference endpoints.

The configuration declares no `user_email` field, although the e-mail code reads and writes one. The model has both versions: `Config.DeclaredFields` is the declaration as written and `Config.CorrectedFields` the one with the field. The agent is modelled as built on the corrected declaration (see "## Findings").

Everything outside the agent during one run is a parameter (`McpAgent.World`):
- the catalogue and the judge;
- the device listing;
- the playback queue;
- the e-mail server;
- the clock's reading as text;
- whether writes of the pending file succeed.

## Model

| member | source | states |
|---|---|---|
| Protocol.Fail | spotify_agent/mcp_server/protocol.py:21-28 | an ERROR envelope carries exactly `{code, message}`, has a null result, and its code reads back |
| Protocol.ServeAnswers | spotify_agent/mcp_server/queue_server.py:63-102 | every answer of the shared routing is a RESPONSE or an ERROR; -32601 exactly for a method outside the server's four (two without resources); -32603 exactly when a known method's tool call or read fails (missing parameters, or the executor or reader raises); otherwise a RESPONSE with the listing, the executor's value, or the reader's value under `contents` |
| Protocol.UnwrapAnswer | spotify_agent/mcp_server/protocol.py:101-106 | a well-formed RESPONSE unwraps to its result, a well-formed ERROR to an error |
| Protocol.CallThroughEnvelope | spotify_agent/mcp_server/protocol.py:89-106 | a tool call sent in the client's envelope and unwrapped reaches the caller as the executor's value for the name and arguments (`{}` when absent), or as an "MCP Error" carrying -32603 and the exception text |
| Protocol.ListThroughEnvelope | spotify_agent/mcp_server/protocol.py:89-106 | a `tools/list` request through the envelope hands back one `tool.dict()` per registered tool, in registry order |
| Protocol.ListedToolsCallable | spotify_agent/mcp_server/protocol.py:67-71 | `call_tool` accepts a name exactly when some entry of the `tools/list` answer carries it |
| Protocol.Client.constructor | spotify_agent/mcp_server/protocol.py:81-82 | a new client has no servers |
| Protocol.Client.RegisterServer | spotify_agent/mcp_server/protocol.py:84-87 | binds the name to the server, overwriting an earlier binding; the other bindings stay |
| Protocol.RegisterThenCall | spotify_agent/mcp_server/protocol.py:84-120 | after `register_server(n, s)` the tool and resource listings for n are s's, and a request to n is s's answer to the REQUEST envelope, unwrapped, whatever n named before |
| PendingStore.ObjectPrefix | spotify_agent/queue_manager.py:47-50 | the length of the leading run of dictionaries: the entries the copy loop gets through before it raises |
| PendingStore.FileAfterCompose | spotify_agent/queue_manager.py:36-43 | two store operations one after the other leave the file as one operation that saves the final list when either saved |
| PendingStore.QueueManager.constructor | spotify_agent/queue_manager.py:13-35 | the list is the file's contents, or empty when the file is missing or unreadable |
| PendingStore.QueueManager.Save | spotify_agent/queue_manager.py:36-43 | the list in memory stays as it is; a successful save makes the file equal to the list; a failed one leaves the file as it was or unreadable, since opening it for writing empties it before the dump |
| PendingStore.QueueManager.AddPendingEpisodes | spotify_agent/queue_manager.py:44-55 | appends a stamped copy of each entry in input order after the old entries, then saves; a non-dictionary entry stops the copy there and nothing is saved |
| PendingStore.QueueManager.RemoveProcessedEpisodes | spotify_agent/queue_manager.py:60-71 | keeps exactly the entries whose `episode.id` is not listed, in order, then saves; an entry without an id makes the filter raise and nothing changes |
| PendingStore.WithoutMembers | spotify_agent/queue_manager.py:63-66 | removal never lengthens the list, and an entry survives exactly when it is present and not listed |
| PendingStore.WithoutAppend | spotify_agent/queue_manager.py:63-66 | the filter works entry by entry: it distributes over concatenation |
| PendingStore.WithoutUnlisted | spotify_agent/queue_manager.py:63-66 | removing ids no entry carries changes nothing |
| PendingStore.WithoutIdempotent | spotify_agent/queue_manager.py:63-66 | removing the same ids twice is removing them once |
| PendingStore.StampKeepsId | spotify_agent/queue_manager.py:48-49 | stamping `added_at` keeps the entry's episode id |
| PendingStore.AddThenRemove | spotify_agent/queue_manager.py:44-66 | adding an episode with a fresh id and then removing that id restores the list |
| PendingStore.RemoveTwoOfThree | spotify_agent/queue_manager.py:63-66 | removing [A, B] from [A, B, C] leaves exactly [C] |
| QueueServer.QueueMcpServer.constructor | spotify_agent/mcp_server/queue_server.py:14-18 | the server wraps the given store |
| QueueServer.QueueMcpServer.ExecuteTool | spotify_agent/mcp_server/queue_server.py:112-129 | the answer and the store's new list and file are those of the tool's specification on the old list |
| QueueServer.QueueMcpServer.HandleRequest | spotify_agent/mcp_server/queue_server.py:63-102 | the answer and the store's new list and file are those of the routing specification on the old list |
| QueueServer.RegisteredTools | spotify_agent/mcp_server/queue_server.py:20-51 | `tools/list` answers exactly add_pending, get_pending and remove_processed |
| QueueServer.ExecutorMatchesRegistry | spotify_agent/mcp_server/queue_server.py:112-129 | the executor dispatches by name without the registry, yet rejects exactly the names the registry lacks, and agrees with `call_tool` on the others |
| QueueServer.OnlyToolCallsWrite | spotify_agent/mcp_server/queue_server.py:63-102 | only `tools/call` changes or saves the store |
| QueueServer.RemovedCountIsRequested | spotify_agent/mcp_server/queue_server.py:123-126 | `removed_count` is the number of ids requested even when none of them was pending |
| QueueServer.AddThenGet | spotify_agent/mcp_server/queue_server.py:114-121 | `add_pending` answers success with the number of episodes given, and a following `get_pending` lists the old entries then the stamped new ones |
| LlmServer.EvaluateThroughProtocol | spotify_agent/mcp_server/llm_server.py:85-89 | through the protocol, `evaluate_episode` answers the judge's score and reasoning unchanged, and -32603 when the judge raises |
| LlmServer.NoResourceMethods | spotify_agent/mcp_server/llm_server.py:47-67 | the resource methods are unknown methods (-32601) |
| LlmServer.ExecutorMatchesRegistry | spotify_agent/mcp_server/llm_server.py:19-97 | the registry holds exactly evaluate_episode and generate_summary, and the executor rejects exactly the other names |
| SpotifyServer.DefaultLimits | spotify_agent/mcp_server/spotify_server.py:150-158 | `search_podcasts` forwards limit 5 and `get_show_episodes` limit 10 when none is given |
| SpotifyServer.DevicesNeedClientSupport | spotify_agent/mcp_server/spotify_server.py:165-166 | with a client that lacks a device listing, `get_devices` surfaces as -32603 |
| SpotifyServer.QueueAnswer | spotify_agent/mcp_server/spotify_server.py:160-163 | `add_to_queue` wraps the client's boolean as `{success: b}`, and an error when the client raises |
| SpotifyServer.ExecutorMatchesRegistry | spotify_agent/mcp_server/spotify_server.py:21-175 | the registry holds exactly five tools, and the executor rejects exactly the other names |
| EmailServer.FormatDuration | spotify_agent/mcp_server/email_server.py:372-384 | "Unknown" exactly for a missing or zero duration |
| EmailServer.FormatDurationReadsBack | spotify_agent/mcp_server/email_server.py:372-384 | the text of a non-zero duration reads back as its whole minutes (ms div 60000) |
| EmailServer.WholeHourKeepsMinutes | spotify_agent/mcp_server/email_server.py:377-383 | 3600000 ms gives "1h 0m"; 59999 ms gives "0m" |
| EmailServer.EmptySummarySendsNothing | spotify_agent/mcp_server/email_server.py:171-193 | with no episodes the summary answers failure without depending on the server, so nothing is sent |
| EmailServer.SuccessNeedsCredentials | spotify_agent/mcp_server/email_server.py:144-256 | every tool answer carries `success`, and success implies the SMTP credentials are set |
| EmailServer.ExecutorMatchesRegistry | spotify_agent/mcp_server/email_server.py:33-170 | the registry holds exactly three tools, and the executor rejects exactly the other names |
| EmailServer.TemplatesThroughProtocol | spotify_agent/mcp_server/email_server.py:385-398 | reading `email://templates` through the protocol answers the three template names |
| Episodes.EncodeReadsBack | spotify_agent/mcp_agent/podcast_agent.py:143-149 | the encoded entry gives back the episode, its id and uri, and its score |
| Json.GetAfterSet | spotify_agent/queue_manager.py:48-49 | after `d[key] = x`, `d.get(key)` and `d.get(key, default)` give x, and every other key reads as before |
| Json.GetOrIsGetWithDefault | spotify_agent/mcp_agent/podcast_agent.py:248 | `d.get(k, default)` of a dictionary is `d[k]` where that exists and the default exactly where it does not |
| Config.DescribeKind | spotify_agent/config.py:19-23 | `str(pref)` starts "Podcast: " exactly when `show_name` is truthy, and "Topics: " otherwise, whatever the topics |
| Config.ReadUserEmail | spotify_agent/config.py:25-38 | reading `user_email` gives the address exactly when the field is declared, and pydantic's `AttributeError` otherwise |
| Config.WriteUserEmail | spotify_agent/config.py:25-38 | writing `user_email` updates exactly that field when it is declared, and fails with pydantic's `ValueError`, nothing written, otherwise |
| Text.Split | spotify_agent/mcp_server/calendar_server.py:661 | `str.split(c)` gives at least one part and no part contains the separator |
| Text.JoinSplit | spotify_agent/mcp_server/calendar_server.py:661 | joining the parts of `s.split(c)` with c gives back s |
| Text.SplitJoin | spotify_agent/mcp_server/calendar_server.py:661 | splitting a join of separator-free parts on the separator gives back the parts |
| Text.Lower | spotify_agent/mcp_server/calendar_server.py:254 | `str.lower()` maps each character and keeps the length |
| Text.ParseInt | spotify_agent/mcp_server/calendar_server.py:659-663 | `int()` is defined exactly on an optional sign followed by at least one digit, and is then the digits' decimal value with the sign applied; everything else is unparsable |
| Text.Join | spotify_agent/mcp_agent/podcast_agent.py:203 | `sep.join` of no parts is empty and of one part is that part |
| Text.JoinAppend | spotify_agent/mcp_agent/podcast_agent.py:203 | joining one more part appends the separator and that part |
| Text.ParseIntToString | spotify_agent/mcp_server/calendar_server.py:659-668 | `int(str(i)) == i` for every integer |
| Sorting.SortIsOrdered | spotify_agent/mcp_server/calendar_server.py:299 | under a total preorder, the sort's result is ordered |
| Sorting.SortIsPermutation | spotify_agent/mcp_server/calendar_server.py:299 | the result holds exactly the input's items |
| Sorting.SortIsStable | spotify_agent/mcp_server/calendar_server.py:346 | items the order ranks together keep their input order |
| Sorting.SortDescendingMeaning | spotify_agent/mcp_agent/podcast_agent.py:164 | `sort(key=score, reverse=True)`: highest score first, a permutation, ties in discovery order |
| Discovery.DurationOk | spotify_agent/mcp_agent/podcast_agent.py:224-238 | true exactly when each truthy bound holds: `duration_ms` (missing counts as 0) at least min×60000 and at most max×60000 |
| Discovery.TopicEpisodesFromCatalog | spotify_agent/mcp_agent/podcast_agent.py:201-220 | every episode of the topic fan-out comes from the catalogue |
| Discovery.CandidatesProvenance | spotify_agent/mcp_agent/podcast_agent.py:167-222 | candidates come from the catalogue; a `show_id` preference depends only on that show's episodes; no selector gives none |
| Discovery.TopicEpisodesAppend | spotify_agent/mcp_agent/podcast_agent.py:212-220 | the fan-out concatenates the shows' episodes in show order |
| Discovery.ExtendsTrans | spotify_agent/mcp_agent/podcast_agent.py:99-154 | "a later scan state extends an earlier one" composes |
| Discovery.ConsiderExtends | spotify_agent/mcp_agent/podcast_agent.py:99-154 | one item grows the processed set, accepts at most one episode, and accepts only a fresh, duration-fitting episode scored at or above the threshold |
| Discovery.ScanItemsExtends | spotify_agent/mcp_agent/podcast_agent.py:99-158 | the item loop of one preference only grows the processed set and only accepts fresh, relevant episodes |
| Discovery.ScanPrefsExtends | spotify_agent/mcp_agent/podcast_agent.py:92-161 | the same for the preference loop |
| Discovery.DiscoveredAreFreshAndRelevant | spotify_agent/mcp_agent/podcast_agent.py:99-154 | every accepted episode passed some preference's duration filter and threshold, was not processed before, is now processed, and no id is accepted twice |
| Discovery.ScanItemsCap | spotify_agent/mcp_agent/podcast_agent.py:151-154 | the item loop never accepts more than the cap (at least one) |
| Discovery.ScanPrefsCap | spotify_agent/mcp_agent/podcast_agent.py:151-161 | across all preferences the accepted count never exceeds the cap |
| Discovery.ScanItemsStops | spotify_agent/mcp_agent/podcast_agent.py:151-154 | once the cap is reached by an acceptance, later items are not looked at |
| Discovery.ScanPrefsStops | spotify_agent/mcp_agent/podcast_agent.py:160-161 | once the cap is reached, later preferences are not looked at |
| Discovery.ConsiderCallsMeaning | spotify_agent/mcp_agent/podcast_agent.py:99-158 | an item asks the judge nothing exactly when it is not a dictionary, has no id, was already processed, or fails the duration filter; otherwise a score request comes first, and a summary request follows exactly when the score reached the threshold |
| Discovery.ConsiderAsksOnly | spotify_agent/mcp_agent/podcast_agent.py:99-158 | one item depends on the judge only through the calls it makes |
| Discovery.SkippedItemIgnoresJudge | spotify_agent/mcp_agent/podcast_agent.py:99-113 | an item skipped before the judge gives the same step whatever the judge would answer |
| Discovery.LowScoreIgnoresSummary | spotify_agent/mcp_agent/podcast_agent.py:133-142 | below the threshold, or when scoring raises, the step does not depend on the summariser |
| Discovery.ScanItemsAsksOnly | spotify_agent/mcp_agent/podcast_agent.py:98-158 | the item loop depends on the judge only through its calls |
| Discovery.ScanPrefsAsksOnly | spotify_agent/mcp_agent/podcast_agent.py:91-161 | a whole pass depends on the judge only through its calls: two judges that answer them alike give the same result |
| Discovery.ScanItemsCallsFresh | spotify_agent/mcp_agent/podcast_agent.py:98-158 | the item loop scores only fresh episodes that fit the bounds, never the same id twice, and asks for a summary only right after a score that reached the threshold |
| Discovery.ScanPrefsCallsFresh | spotify_agent/mcp_agent/podcast_agent.py:91-161 | the same over a whole pass, each score asked under one of the preferences, every scored id remembered after it |
| Delivery.FirstActiveMeans | spotify_agent/mcp_agent/podcast_agent.py:248-255 | the device loop finds an active device exactly when some device has `is_active` truthy and no earlier entry is malformed |
| Delivery.FatesPartition | spotify_agent/mcp_agent/podcast_agent.py:282-322 | each episode offered to the queue is queued, sent back to pending or dropped, exactly one of the three |
| Delivery.WithFateMembers | spotify_agent/mcp_agent/podcast_agent.py:282-322 | the episodes given a fate are input episodes with that fate |
| Delivery.RedeliveredIdsSound | spotify_agent/mcp_agent/podcast_agent.py:359-382 | every id sent to `remove_processed` is the id of a pending entry the queue took |
| Delivery.RedeliveredIdsComplete | spotify_agent/mcp_agent/podcast_agent.py:359-382 | the id of every pending entry the queue took is sent |
| Delivery.RedeliveredIdsCount | spotify_agent/mcp_agent/podcast_agent.py:359-382 | no more ids than delivered entries |
| Delivery.RedeliveredLeaveStore | spotify_agent/mcp_agent/podcast_agent.py:384-392 | after removal no delivered entry is pending, and every entry whose id was not delivered remains |
| McpAgent.PodcastAgent.constructor | spotify_agent/mcp_agent/enhanced_podcast_agent.py:25-45 | a new agent has processed nothing and sent no mail; the plain agent never mails; the e-mail-capable one sets its flag to `bool(config.user_email)` read on a configuration that declares the field, the corrected declaration (see Findings) |
| McpAgent.EmailFlag | spotify_agent/mcp_agent/enhanced_podcast_agent.py:41 | `bool(config.user_email)`: whether an address is configured, or the `AttributeError` when the configuration does not declare the field |
| McpAgent.EnhancedConstructionFails | spotify_agent/mcp_agent/enhanced_podcast_agent.py:41 | as declared, reading `user_email` raises, so no e-mail-capable agent is built |
| McpAgent.EnhancedConstructionCorrected | spotify_agent/mcp_agent/enhanced_podcast_agent.py:41 | with the field declared, e-mail is on exactly when an address is configured |
| McpAgent.PodcastAgent.AddPodcastPreference | spotify_agent/mcp_agent/podcast_agent.py:71-75 | appends the preference and changes nothing else |
| McpAgent.PodcastAgent.ResetProcessedEpisodes | spotify_agent/mcp_agent/podcast_agent.py:80-84 | empties the processed set |
| McpAgent.PodcastAgent.CheckForNewEpisodes | spotify_agent/mcp_agent/podcast_agent.py:85-166 | the nested loops give the processed set and accepted episodes of the preference scan (`ScanPrefs`, whose judge calls the `Discovery` lemmas describe), ranked by the stable descending sort; a provider failure outside the per-item guard is an error and keeps the ids remembered so far; in spotify_agent/mcp_agent/enhanced_podcast_agent.py:98-180: the variant's loop has the same contract; its entries carry `discovered_at` |
| McpAgent.PodcastAgent.GetEpisodesForPreference | spotify_agent/mcp_agent/podcast_agent.py:167-222 | candidates by `show_id`, else the first hit for `show_name`, else the topic fan-out over up to five shows with three episodes each |
| McpAgent.PodcastAgent.CheckActiveDevice | spotify_agent/mcp_agent/podcast_agent.py:240-260 | true exactly when the listing succeeded and holds an active device |
| McpAgent.PodcastAgent.SendPendingNotification | spotify_agent/mcp_agent/enhanced_podcast_agent.py:343-363 | a notification mail about the parked episodes, only when e-mail is on and there are some |
| McpAgent.PodcastAgent.AddEpisodesToQueue | spotify_agent/mcp_agent/podcast_agent.py:261-326 | without a device, a non-empty batch goes to pending whole and nothing is returned; with one, the queued episodes in order, and exactly the refused or failing ones go to pending; in spotify_agent/mcp_agent/enhanced_podcast_agent.py:272-342: the variant also mails a notification about a parked batch when e-mail is on |
| McpAgent.PodcastAgent.QueueEach | spotify_agent/mcp_agent/podcast_agent.py:282-325 | the per-episode loop returns the queued episodes and appends the sent-back ones to pending |
| McpAgent.PodcastAgent.ProcessPendingEpisodes | spotify_agent/mcp_agent/podcast_agent.py:327-408 | success on an empty store; a warning without a device and the store untouched; otherwise "Processed k of n", with exactly the delivered ids removed, and only when some were; in spotify_agent/mcp_agent/enhanced_podcast_agent.py:476-557: the variant has the same contract |
| McpAgent.PodcastAgent.SendEpisodeSummaryEmail | spotify_agent/mcp_agent/enhanced_podcast_agent.py:364-385 | failure and no mail when e-mail is off or there are no episodes; otherwise exactly one summary mail and the server's answer |
| McpAgent.PodcastAgent.SendWeeklyDigest | spotify_agent/mcp_agent/enhanced_podcast_agent.py:386-416 | failure and no mail when e-mail is off or the statistics fail; otherwise exactly one digest mail |
| McpAgent.PodcastAgent.MailAfterDelivery | spotify_agent/mcp_agent/enhanced_podcast_agent.py:585-599 | the variant reports whether a summary mail was sent, mailing the added episodes, or all relevant ones when parked, only when asked, e-mail is on and something was delivered or parked |
| McpAgent.PodcastAgent.Deliver | spotify_agent/mcp_agent/enhanced_podcast_agent.py:581-601 | delivery of a non-empty batch: the queued episodes, the stamped parked or refused ones appended to pending and saved when there are some, then the notification and summary mails; the variant alone reports `email_sent` |
| McpAgent.PodcastAgent.RedeliverPending | spotify_agent/mcp_agent/enhanced_podcast_agent.py:570-576 | `run` stops after redelivery exactly when it reports success with episodes; the store is then the list after removal, and the variant mails one summary of the redelivered episodes when asked and e-mail is on |
| McpAgent.PodcastAgent.DiscoverAndDeliver | spotify_agent/mcp_agent/podcast_agent.py:423-445 | discovery then delivery (`Discovers`): the ids remembered are those of the scan; an error on a provider failure, "No new relevant episodes found", or "Added N episodes to queue" with the queued episodes; the pending list gains exactly the stamped parked or refused episodes, saved when there are some; the mails are the delivery's notification and summary, and none with e-mail off; in spotify_agent/mcp_agent/enhanced_podcast_agent.py:578-607: the variant reports `email_sent` |
| McpAgent.PodcastAgent.Run | spotify_agent/mcp_agent/podcast_agent.py:409-452 | error, and nothing changed, without preferences; when redelivery queued something and its removal held, that report, the store after removal, nothing processed, and only the variant's summary mail; otherwise discovery and delivery from the store left by redelivery, with the file saved when either step wrote; status is success or error; no mail while e-mail is off; in spotify_agent/mcp_agent/enhanced_podcast_agent.py:558-616: the variant has the same outcomes |
| LegacyAgent.LoweredThreshold | spotify_agent/agent.py:44-45 | a threshold above 0.7 becomes 0.5; others stay; the result is never above 0.7 |
| LegacyAgent.FanOutAppend | spotify_agent/agent.py:110-117 | the topic fan-out concatenates per show |
| LegacyAgent.FanOutSkipsFailing | spotify_agent/agent.py:112-117 | a show whose fetch fails is skipped while the others still contribute |
| LegacyAgent.FanOutFromCatalog | spotify_agent/agent.py:104-121 | fan-out episodes come from the catalogue |
| LegacyAgent.LegacyCandidatesMeaning | spotify_agent/agent.py:76-125 | candidates come from the catalogue; a preference is skipped exactly when it has no selector or its `show_name` search finds nothing |
| LegacyAgent.FetchFailureContained | spotify_agent/agent.py:80-86 | a failing `show_id` fetch gives this preference no candidates, where the MCP agent's run fails |
| LegacyAgent.LegacyScanExtends | spotify_agent/agent.py:127-193 | the scan only grows the processed set and only accepts fresh, relevant episodes |
| LegacyAgent.LegacyDiscoveredAreFreshAndRelevant | spotify_agent/agent.py:127-193 | accepted episodes passed a duration filter and the threshold, were new, and are distinct |
| LegacyAgent.LegacyScanCap | spotify_agent/agent.py:183-193 | the accepted count never exceeds the cap |
| LegacyAgent.PodcastAgent.constructor | spotify_agent/agent.py:24-49 | the configuration with the lowered threshold and an empty processed set |
| LegacyAgent.PodcastAgent.GetCandidates | spotify_agent/agent.py:74-125 | the loop gathers the candidates of the reference definition |
| LegacyAgent.PodcastAgent.CheckForNewEpisodes | spotify_agent/agent.py:68-199 | the processed set and ranking of the legacy scan, sorted by the stable descending sort |
| LegacyAgent.PodcastAgent.AddEpisodesToQueue | spotify_agent/agent.py:200-229 | exactly the episodes the queue took, in order; no pending fallback |
| LegacyAgent.PodcastAgent.Run | spotify_agent/agent.py:230-268 | error without preferences; "No new relevant episodes found"; or "Added N episodes to queue" with the delivered episodes |
| Calendar.MinutesToTimeReadsBack | spotify_agent/mcp_server/calendar_server.py:659-669 | `_time_to_minutes(_minutes_to_time(m)) == m` for every integer m |
| Calendar.ClockTextMinutes | spotify_agent/mcp_server/calendar_server.py:659-663 | an `HH:MM` text is a minute of the day |
| Calendar.RenderedTimeIsClock | spotify_agent/mcp_server/calendar_server.py:664-669 | a minute of the day renders as `HH:MM` |
| Calendar.FormatDurationMinutesReadsBack | spotify_agent/mcp_server/calendar_server.py:670-681 | the duration text reads back as its minutes |
| Calendar.DurationTextShapes | spotify_agent/mcp_server/calendar_server.py:670-681 | 45 gives "45m", 120 gives "2h", 90 gives "1h 30m" |
| Calendar.QualityTable | spotify_agent/mcp_server/calendar_server.py:584-605 | quality is 5 to 10 tenths: 5, plus 2 on weekdays, plus 3 at 7-9 or 17-19, else plus 2 at 12-14 or 20-21 |
| Calendar.QualityOfRenderedTime | spotify_agent/mcp_server/calendar_server.py:584-605 | the quality of a rendered time is that of its hour |
| Calendar.AdherenceMeaning | spotify_agent/mcp_server/calendar_server.py:646-658 | between 0 and 1; 0 for no schedule; without expected sessions 1 exactly when nothing was held; otherwise the held fraction of four weeks, full exactly when 4×expected were held |
| Calendar.GapsBounds | spotify_agent/mcp_server/calendar_server.py:549-582 | every gap starts at or after the window start and lasts at least the minimum |
| Calendar.GapsAscending | spotify_agent/mcp_server/calendar_server.py:549-582 | with events that do not run backwards, gaps are ascending and disjoint |
| Calendar.GapsAvoidEvents | spotify_agent/mcp_server/calendar_server.py:549-582 | over events sorted by start, no gap overlaps an event |
| Calendar.GapsWithinWindow | spotify_agent/mcp_server/calendar_server.py:561-578 | when no event starts after the window end, gaps end within the window |
| Calendar.GapPastWindowEnd | spotify_agent/mcp_server/calendar_server.py:561-578 | an event after the window's end makes a gap run past the window |
| Calendar.TimeGapsMeaning | spotify_agent/mcp_server/calendar_server.py:540-583 | defined exactly when both times and every event time parse; then the gap properties hold for the events sorted by start |
| Calendar.ListingMeaning | spotify_agent/mcp_server/calendar_server.py:289-314 | fails exactly when an active entry's day is no day name; otherwise exactly the active entries, ordered by (weekday, start text), with the recurring total and its text |
| Calendar.SlotReportMeaning | spotify_agent/mcp_server/calendar_server.py:315-361 | the report fails exactly when the slot search fails; otherwise `total_found` is the number of slots found and the kept slots are the best ten (`BestTen`): min(10, total_found) of them, drawn from those found, by quality descending, and no slot left out has a better quality than a kept one; each kept slot is of a preferred day, at least the minimum long, of quality 5 to 10 |
| Calendar.TopKeepsBest | spotify_agent/mcp_server/calendar_server.py:345-349 | the first n of the descending sort are min(n, total) items drawn from the list, in descending order, and no item left out ranks above a kept one |
| Calendar.CalendarServer.constructor | spotify_agent/mcp_server/calendar_server.py:17-33 | the server holds the loaded schedule |
| Calendar.CalendarServer.ScheduleListeningTime | spotify_agent/mcp_server/calendar_server.py:248-288 | an unknown day or a start not `HH:MM` fails with the source's message and leaves the schedule; otherwise appends exactly one active entry with the day lowercased |
| Calendar.CalendarServer.FindTimeGaps | spotify_agent/mcp_server/calendar_server.py:540-583 | the loop computes the gaps of the reference definition |
| Calendar.CalendarServer.GetAvailableTimeSlots | spotify_agent/mcp_server/calendar_server.py:315-361 | the slot report for the preferred days and the window, 07:00-22:00 by default |
| Calendar.CalendarServer.CollectSlots | spotify_agent/mcp_server/calendar_server.py:327-343 | the day loop gives the slots of each preferred day in turn, failing when a day's gaps cannot be computed |
| Calendar.CollectEvents | spotify_agent/mcp_server/calendar_server.py:550-554 | the loop parses the day's events, failing when a time does not parse |
| Calendar.GapLoop | spotify_agent/mcp_server/calendar_server.py:558-582 | the gap loop computes the reference gaps |
| Calendar.AppendSlots | spotify_agent/mcp_server/calendar_server.py:336-343 | appends one slot per gap of the day |
| Calendar.ScheduledSessionIsListed | spotify_agent/mcp_server/calendar_server.py:248-314 | a scheduled entry appears in the next listing |
| Api.UpdateRefusal | spotify_agent/mcp_api/api.py:230-243 | refused (400) exactly when threshold, cap or frequency is out of bounds, checked in that order |
| Api.ApplyFieldsMeaning | spotify_agent/mcp_api/api.py:245-249 | the `setattr` loop over the supplied fields gives the field-by-field update |
| Api.AcceptedUpdateKeepsBounds | spotify_agent/mcp_api/api.py:230-249 | an accepted update keeps the configuration within the bounds and the preferences unchanged |
| Api.DefaultsWithinBounds | spotify_agent/config.py:25-38 | the default configuration is within the bounds |
| Api.FieldNamesMeaning | spotify_agent/mcp_api/api.py:245-249 | the reported names are those of the supplied fields, in order |
| Api.EmailInMeaning | spotify_agent/mcp_api/enhanced_api.py:617-621 | the supplied fields include the e-mail exactly when `user_email` was supplied |
| Api.UpdateConfig | spotify_agent/mcp_api/api.py:226-268 | a refused update answers the refusal and changes nothing; an accepted one runs the apply loop and answers 500 with the error's text if it stops; with `user_email` declared it writes exactly the supplied fields and an address turns e-mail on; as declared, an address gives 500 after the other supplied fields were written, e-mail unchanged; in spotify_agent/mcp_api/enhanced_api.py:597-645: the e-mail-capable endpoint is the one with the address |
| Api.ApplyAll | spotify_agent/mcp_api/enhanced_api.py:616-624 | the loop applies each field in turn, stopping at the first error, and leaves what `ApplyChecked` gives |
| Api.UpdateEmailSettings | spotify_agent/mcp_api/enhanced_api.py:323-343 | with `user_email` declared: sets the address, turns e-mail on, and answers success; as declared: answers 500 with pydantic's error and changes nothing |
| Api.ApplyCheckedCompletes | spotify_agent/mcp_api/enhanced_api.py:616-624 | when the address can be written, or none is supplied, the loop applies every field and e-mail is on exactly when it was or an address came |
| Api.ApplyCheckedAsWritten | spotify_agent/mcp_api/enhanced_api.py:616-621 | as declared, an accepted update with an address writes the other supplied fields, then fails with pydantic's error, e-mail unchanged |
| Api.ApplyCheckedCorrected | spotify_agent/mcp_api/enhanced_api.py:616-624 | with the field declared, the loop gives the field-by-field update and turns e-mail on for an address |
| Api.EmailSettingsAsWritten | spotify_agent/mcp_api/enhanced_api.py:329 | as declared, writing the address fails with pydantic's error |
| Api.AddPreference | spotify_agent/mcp_api/api.py:339-356 | 400 when no selector is truthy; otherwise exactly one preference appended; in spotify_agent/mcp_api/enhanced_api.py:652-670: the same rule in the e-mail-capable API |

## Left out

- HTTP plumbing is not modelled: the FastAPI routes, CORS, uvicorn and the lazily built agents (`get_agent`). The endpoints are modelled only through their validate-then-apply logic.
- Threads, the scheduler library and wall-clock timing are concurrency. Overlapping runs and concurrent writers to the pending file are not modelled.
- The entry points, the environment checks, `spotify_agent/spotify_client.py` and `spotify_agent/llm_agent.py` are not part of this model. The Spotify client is an oracle whose calls may fail, and so is the judge.
- SMTP delivery and the HTML e-mail bodies are I/O and text formatting. A send is an oracle answer gated by the credentials check.
- JSON file I/O becomes a ghost snapshot of the backing file and a `saveOk` parameter.
- The clock becomes one `now` text per call. What depends on its ticking is left out:
  - the calendar's next session and relative times;
  - its listening statistics, schedule suggestions and episode reminders;
  - timestamp ids.
- The calendar server's request routing, argument decoding and resource reads are not modelled.
- The enhanced agent's calendar forwarders (`schedule_listening_time`, `get_listening_schedule`, `suggest_optimal_schedule`) only relay to the calendar server, which is modelled directly.
- `run_weekly_digest`, `get_mcp_servers_status` and `_update_listening_history` are left out. They only log, collect statistics or report server status.
- `QueueManager.send_notification` only logs.
- Asyncio is left out: every `await` runs in turn, so the operations are plain methods.
- Pending uniqueness is not assumed: the store appends without dedup.
- `remove_processed` with an `episode_ids` value that is not a list is left out. Python's membership then tests substrings or keys.
- Ids are text. An episode id that is not a string is treated like a missing id.
- An episode record keeps only the fields the pipeline reads.
- Exception texts are kept only where a guard in the source produces them.
- Calendar.QualityTable: the score is in integer tenths rather than floating point; the ranking is the same.
- Calendar.ListingOf: the listing's `next_session` field is not computed.
- Calendar.ListingOf: an entry's `recurring` and `active` are typed booleans. The source's default for a missing `recurring` key (None in the listing, True in the adherence rate) therefore does not arise.
- Text.ParseInt: accepts an optional sign followed by decimal digits. Python's `int()` also strips surrounding whitespace and accepts underscores between digits; those inputs are reported as unparsable.
- Text.Lower: lowers ASCII letters only, not all of Unicode.
- Api.UpdateConfig: the e-mail address is not checked for well-formedness as pydantic's `EmailStr` would, and the `os.environ['USER_EMAIL']` write after the address is left out: it is process environment.
- Api.ApplyAll: the `os.environ['USER_EMAIL']` write after a stored address is left out, as above.
- Api.UpdateEmailSettings: no `EmailStr` check and no `os.environ['USER_EMAIL']` write, as for `Api.UpdateConfig`.
- McpAgent.PodcastAgent.constructor: models the agent built on a configuration that declares `user_email`. As declared, the e-mail-capable constructor raises; `McpAgent.EnhancedConstructionFails` states that case.
- `get_agent` of the e-mail-capable API also writes `config.user_email` when `USER_EMAIL` is set (spotify_agent/mcp_api/enhanced_api.py:57-60). It belongs to the HTTP plumbing above and is not modelled.
- The agents do not go through `Protocol.Client` or the modelled servers. `McpAgent` calls the `World` oracles and the `QueueManager` methods directly; the server lemmas state what the same calls give through a server.
- Protocol.Client.SendRequest: the server's `handle_request` is a pure function of the server and the message. A server that changes state on a request, such as the queue server, therefore cannot sit behind the client; `QueueServer.QueueMcpServer.HandleRequest` is modelled as its own method.
- One `World` per run: the device listing is read once. The e-mail-capable run's second device query (spotify_agent/mcp_agent/enhanced_podcast_agent.py:587) sees the same answer as the first, so a device that appears or goes away during a run is not modelled.
- An explicit JSON null `duration_ms` is read like a missing one (0). With a truthy bound, the source's division of None raises and the per-item guard skips the episode. The model skips it too when a minimum is set, but with only a maximum it lets the episode through.
- LegacyAgent.FanOut: a null or non-dictionary show entry in the topic search makes the per-show handler itself raise (`show.get`), so the outer handler of spotify_agent/agent.py:119-121 discards the episodes of every show of that preference. The model only has whole fetch failures, which skip one show.
- LegacyAgent.PodcastAgent.constructor: the source lowers the threshold on the caller's configuration object itself. The model's configuration is a value, so the caller's copy is unchanged.
- `schedule_listening_time` saves the calendar file (spotify_agent/mcp_server/calendar_server.py:277). That is file I/O and is not modelled.
- Calendar.ListingMeaning: `_get_next_listening_session` can raise on a malformed start time loaded from the file. The model leaves `next_session` out and reports the listing there.
- `spotify_client.py` defines no device listing or playback start. The device query is therefore an oracle that may fail, and a failure counts as no active device.

## Findings

| source | as written | input that shows it | evidently intended | confidence | as-written member | corrected member |
|---|---|---|---|---|---|---|
| spotify_agent/mcp_agent/enhanced_podcast_agent.py:41 | `bool(config.user_email)` reads a field that `AgentConfig` (spotify_agent/config.py:25-38) does not declare, and pydantic 2 raises `AttributeError`, so the e-mail-capable agent is never built | any configuration, e.g. `AgentConfig()` | `AgentConfig` declares `user_email: Optional[str] = None`, and e-mail is on exactly when an address is set | not executed | McpAgent.EnhancedConstructionFails | McpAgent.EnhancedConstructionCorrected |
| spotify_agent/mcp_api/enhanced_api.py:616-621 | `config.user_email = str(value)` assigns an undeclared field, and pydantic 2 raises `ValueError`. The endpoint then answers 500, after the fields before the address are already written | `PUT /config` with `{"relevance_threshold": 0.5, "user_email": "a@b.c"}` | the address is stored, e-mail is turned on and the update succeeds | not executed | Api.ApplyCheckedAsWritten | Api.ApplyCheckedCorrected |
| spotify_agent/mcp_api/enhanced_api.py:329 | the same assignment in `update_email_settings`, so the endpoint always answers 500 | `POST /email/settings` with any address | the address is stored and e-mail is turned on | not executed | Api.EmailSettingsAsWritten | Api.UpdateEmailSettings |

Together with the first row, the e-mail-capable API cannot build its agent. The second and third rows describe the endpoints on an agent that exists. `Api.UpdateConfig` and `Api.UpdateEmailSettings` take the declared field set as a parameter and state both cases. The agent's own e-mail logic is the corrected one.
