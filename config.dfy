/**
 * The agent's configuration: podcast preferences (what to look for) and the
 * agent settings (threshold, per-run cap, schedule, e-mail address).
 */
module Config {
  import opened Wrappers
  import Text

  /** One podcast preference; every field is optional, as in the source. */
  datatype Preference = Preference(
    showName: Option<string>,
    showId: Option<string>,
    topics: Option<seq<string>>,
    minDurationMinutes: Option<int>,
    maxDurationMinutes: Option<int>)

  /** Python truthiness of an optional string: present and not empty. */
  predicate HasText(s: Option<string>) { s.Some? && s.value != "" }

  /** Python truthiness of an optional topic list: present and not empty. */
  predicate HasTopics(t: Option<seq<string>>) { t.Some? && t.value != [] }

  /** Python truthiness of an optional duration bound: present and not zero. */
  predicate HasBound(b: Option<int>) { b.Some? && b.value != 0 }

  /** The topic list, with an absent list read as empty (`topics or []`). */
  function TopicList(p: Preference): seq<string> {
    if p.topics.Some? then p.topics.value else []
  }

  /** `str(preference)`: the show name when there is one, else the topics. */
  function Describe(p: Preference): string {
    if HasText(p.showName) then "Podcast: " + p.showName.value
    else "Topics: " + Text.Join(TopicList(p), ", ")
  }

  predicate StartsWith(s: string, prefix: string) {
    |prefix| <= |s| && s[..|prefix|] == prefix
  }

  /**
   * The description tells which kind of preference it came from: it starts
   * with "Podcast: " exactly when the preference names a show, and otherwise
   * with "Topics: ".
   */
  lemma DescribeKind(p: Preference)
    ensures StartsWith(Describe(p), "Podcast: ") <==> HasText(p.showName)
    ensures !HasText(p.showName) <==> StartsWith(Describe(p), "Topics: ")
  {
    var d := Describe(p);
    if HasText(p.showName) {
      assert d[..9] == "Podcast: ";
      assert d[0] != "Topics: "[0];
    } else {
      assert d[..8] == "Topics: ";
      assert d[0] != "Podcast: "[0];
    }
  }

  /** The preference has something to search by. */
  predicate HasSelector(p: Preference) {
    HasText(p.showName) || HasText(p.showId) || HasTopics(p.topics)
  }

  /**
   * The agent settings the core reads. `userEmail` is the `user_email`
   * attribute the e-mail-capable code reads and writes; the declared model
   * has no such field (see `DeclaredFields`), so it holds a value only
   * under `CorrectedFields`.
   */
  datatype AgentConfig = AgentConfig(
    checkFrequency: string,
    relevanceThreshold: real,
    maxEpisodesPerRun: int,
    useVectorMemory: bool,
    preferences: seq<Preference>,
    userEmail: Option<string>)

  /** The declared defaults: daily checks, threshold 0.6, at most 3 episodes. */
  const DefaultConfig := AgentConfig("daily", 0.6, 3, false, [], None)

  /** The fields `AgentConfig` declares; `user_email` is not among them. */
  const DeclaredFields: set<string> := {
    "openai_api_key", "spotify_client_id", "spotify_client_secret", "spotify_redirect_uri",
    "check_frequency", "relevance_threshold", "max_episodes_per_run", "use_vector_memory",
    "podcast_preferences"}

  /** The declaration the e-mail code evidently expects: the same fields and an optional `user_email`. */
  const CorrectedFields: set<string> := DeclaredFields + {"user_email"}

  /** pydantic's text for reading a field a model does not declare (an `AttributeError`). */
  function NoAttribute(name: string): string {
    "'AgentConfig' object has no attribute '" + name + "'"
  }

  /** pydantic's text for assigning a field a model does not declare (a `ValueError`). */
  function NoField(name: string): string {
    "\"AgentConfig\" object has no field \"" + name + "\""
  }

  /**
   * `config.user_email` on a configuration declaring `declared`: the address,
   * or the `AttributeError` of an undeclared field.
   */
  function ReadUserEmail(declared: set<string>, c: AgentConfig): (r: Result<Option<string>, string>)
    ensures r.Ok? <==> "user_email" in declared
    ensures r.Ok? ==> r.value == c.userEmail
    ensures r.Err? ==> r.error == NoAttribute("user_email")
  {
    if "user_email" in declared then Ok(c.userEmail) else Err(NoAttribute("user_email"))
  }

  /**
   * `config.user_email = e` on a configuration declaring `declared`: the
   * updated configuration, or the `ValueError` of an undeclared field with
   * nothing written.
   */
  function WriteUserEmail(declared: set<string>, c: AgentConfig, e: string): (r: Result<AgentConfig, string>)
    ensures r.Ok? <==> "user_email" in declared
    ensures r.Ok? ==> r.value == c.(userEmail := Some(e))
    ensures r.Err? ==> r.error == NoField("user_email")
  {
    if "user_email" in declared then Ok(c.(userEmail := Some(e))) else Err(NoField("user_email"))
  }

  /** The declared model has no `user_email`; the corrected one has. */
  lemma UserEmailUndeclared()
    ensures "user_email" !in DeclaredFields
    ensures "user_email" in CorrectedFields
  {
  }
}
