/**
 * The records the agents pass around: catalogue episodes and shows, playback
 * devices, the judge's verdicts and the accepted-episode entries, and the
 * providers (catalogue and judge) as oracles.
 */
module Episodes {
  import opened Wrappers
  import opened Json
  import opened Config

  /** A catalogue episode: the fields of the episode dictionary the agents read. */
  datatype Episode = Episode(
    id: Option<string>,
    name: Option<string>,
    durationMs: Option<int>,
    uri: Option<string>)

  /** One item of a catalogue answer: a dictionary, or something else. */
  datatype CatalogEntry = Record(episode: Episode) | NotRecord

  /** A show from a catalogue search; `id` is None when the dictionary has no id. */
  datatype Show = Show(id: Option<string>, name: Option<string>)

  /** One playback device; `Malformed` is an item without `.get`. */
  datatype Device = Device(name: Option<string>, isActive: Value) | Malformed

  /** What the judge says about an episode. */
  datatype Verdict = Verdict(score: real, reasoning: string)

  /** An accepted episode as the discovery step records it. */
  datatype EpisodeData = EpisodeData(
    episode: Episode,
    score: real,
    reasoning: string,
    summary: string,
    preference: string,
    discoveredAt: Option<string>)

  /**
   * The catalogue behind the music-service tools: a show search and a show's
   * episodes, each with its limit; None where the call raises.
   */
  datatype Catalog = Catalog(
    search: (string, int) -> Option<seq<Show>>,
    showEpisodes: (string, int) -> Option<seq<CatalogEntry>>)

  /** The language-model judge behind the evaluation tools; None where the call raises. */
  datatype Judge = Judge(
    evaluate: (Episode, Preference) -> Option<Verdict>,
    summarize: Episode -> Option<string>)

  function Field(key: string, v: Option<string>): map<string, Value> {
    if v.Some? then map[key := Str(v.value)] else map[]
  }

  /** The episode dictionary with the fields the model keeps. */
  function EpisodeValue(e: Episode): Value {
    Object(Field("id", e.id) + Field("name", e.name) + Field("uri", e.uri)
           + (if e.durationMs.Some? then map["duration_ms" := Int(e.durationMs.value)] else map[]))
  }

  /** The accepted-episode dictionary as it is queued and reported. */
  function Encode(d: EpisodeData): Value {
    Object(map["episode" := EpisodeValue(d.episode),
               "relevance_score" := Real(d.score),
               "reasoning" := Str(d.reasoning),
               "summary" := Str(d.summary),
               "preference" := Str(d.preference)]
           + (if d.discoveredAt.Some? then map["discovered_at" := Str(d.discoveredAt.value)] else map[]))
  }

  function Encodes(ds: seq<EpisodeData>): (r: seq<Value>)
    ensures |r| == |ds|
    ensures forall k :: 0 <= k < |ds| ==> r[k] == Encode(ds[k])
  {
    seq(|ds|, k requires 0 <= k < |ds| => Encode(ds[k]))
  }

  function Score(d: EpisodeData): real {
    d.score
  }

  /**
   * An encoded entry gives back the episode's id and uri where the pending
   * store and the redelivery step look for them, and its score.
   */
  lemma EncodeReadsBack(d: EpisodeData)
    ensures Get(Encode(d), "episode") == Some(EpisodeValue(d.episode))
    ensures Get(EpisodeValue(d.episode), "id") == (if d.episode.id.Some? then Some(Str(d.episode.id.value)) else None)
    ensures Get(EpisodeValue(d.episode), "uri") == (if d.episode.uri.Some? then Some(Str(d.episode.uri.value)) else None)
    ensures Get(Encode(d), "relevance_score") == Some(Real(d.score))
  {
    EpisodeValueReadsBack(d.episode);
    var extra := if d.discoveredAt.Some? then map["discovered_at" := Str(d.discoveredAt.value)] else map[];
    assert "episode" !in extra && "relevance_score" !in extra;
  }

  /** The episode dictionary gives back the id and the uri, where present. */
  lemma EpisodeValueReadsBack(e: Episode)
    ensures Get(EpisodeValue(e), "id") == (if e.id.Some? then Some(Str(e.id.value)) else None)
    ensures Get(EpisodeValue(e), "uri") == (if e.uri.Some? then Some(Str(e.uri.value)) else None)
  {
    var duration := if e.durationMs.Some? then map["duration_ms" := Int(e.durationMs.value)] else map[];
    assert "id" !in duration && "uri" !in duration;
    assert "id" !in Field("name", e.name) && "id" !in Field("uri", e.uri);
    assert "uri" !in Field("id", e.id) && "uri" !in Field("name", e.name);
  }
}
