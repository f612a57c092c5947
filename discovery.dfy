/**
 * What one discovery pass of the agents computes: the candidates a
 * preference yields, the duration filter, and the evaluate-and-filter scan
 * over all preferences with its dedup set and per-run cap. The agents' loops
 * are proved equal to these functions; the properties the pipeline promises
 * are proved here.
 */
module Discovery {
  import opened Wrappers
  import opened Text
  import opened Config
  import opened Episodes

  /** `episode.get('duration_ms', 0)`. */
  function DurationMs(e: Episode): int {
    if e.durationMs.Some? then e.durationMs.value else 0
  }

  /**
   * `_check_duration_constraints`: the bounds are in minutes and the source
   * compares a real number of minutes; only bounds that are set and non-zero
   * apply. The result is the same comparison on whole milliseconds.
   */
  function DurationOk(e: Episode, p: Preference): (ok: bool)
    ensures ok <==> ((!HasBound(p.minDurationMinutes) || DurationMs(e) >= p.minDurationMinutes.value * 60000)
                     && (!HasBound(p.maxDurationMinutes) || DurationMs(e) <= p.maxDurationMinutes.value * 60000))
  {
    if !(HasBound(p.minDurationMinutes) || HasBound(p.maxDurationMinutes)) then true
    else
      var minutes := (DurationMs(e) as real) / 60000.0;
      if HasBound(p.minDurationMinutes) && minutes < p.minDurationMinutes.value as real then false
      else if HasBound(p.maxDurationMinutes) && minutes > p.maxDurationMinutes.value as real then false
      else true
  }

  /** The text of a failed tool call as it reaches the agent. */
  const NoAnswer: string := "MCP Error"

  function Lookup(r: Option<seq<CatalogEntry>>): Result<seq<CatalogEntry>, string> {
    if r.Some? then Ok(r.value) else Err(NoAnswer)
  }

  /** The topic fan-out: three episodes of each show found, in show order. */
  function TopicEpisodes(catalog: Catalog, shows: seq<Show>): Result<seq<CatalogEntry>, string>
    decreases |shows|
  {
    if shows == [] then Ok([])
    else
      match TopicEpisodes(catalog, shows[..|shows| - 1])
      case Err(e) => Err(e)
      case Ok(es) =>
        var show := shows[|shows| - 1];
        if show.id.None? then Err("'id'")
        else
          match catalog.showEpisodes(show.id.value, 3)
          case None => Err(NoAnswer)
          case Some(more) => Ok(es + more)
  }

  /**
   * `_get_episodes_for_preference`: a show id first (ten episodes), then a
   * show name (the first search hit only, ten episodes), then the topics
   * joined with " OR " (five shows, three episodes each). Failures propagate.
   */
  function CandidatesFor(catalog: Catalog, p: Preference): Result<seq<CatalogEntry>, string> {
    if HasText(p.showId) then Lookup(catalog.showEpisodes(p.showId.value, 10))
    else if HasText(p.showName) then
      match catalog.search(p.showName.value, 1)
      case None => Err(NoAnswer)
      case Some(shows) =>
        if shows == [] then Ok([])
        else if shows[0].id.None? then Err("'id'")
        else Lookup(catalog.showEpisodes(shows[0].id.value, 10))
    else if HasTopics(p.topics) then
      match catalog.search(Join(p.topics.value, " OR "), 5)
      case None => Err(NoAnswer)
      case Some(shows) => TopicEpisodes(catalog, shows)
    else Ok([])
  }

  /** The item came out of some show-episodes lookup of the catalogue. */
  ghost predicate FromCatalog(catalog: Catalog, x: CatalogEntry) {
    exists id: string, limit: int :: catalog.showEpisodes(id, limit).Some? && x in catalog.showEpisodes(id, limit).value
  }

  lemma {:induction false} TopicEpisodesFromCatalog(catalog: Catalog, shows: seq<Show>)
    ensures TopicEpisodes(catalog, shows).Ok? ==>
            forall x :: x in TopicEpisodes(catalog, shows).value ==> FromCatalog(catalog, x)
    decreases |shows|
  {
    if shows != [] {
      TopicEpisodesFromCatalog(catalog, shows[..|shows| - 1]);
    }
  }

  /**
   * Every candidate comes from the catalogue; a show id is looked up without
   * any search, and a preference with nothing to search by yields nothing.
   */
  lemma CandidatesProvenance(catalog: Catalog, other: Catalog, p: Preference)
    ensures CandidatesFor(catalog, p).Ok? ==>
            forall x :: x in CandidatesFor(catalog, p).value ==> FromCatalog(catalog, x)
    ensures HasText(p.showId) && other.showEpisodes == catalog.showEpisodes ==>
            CandidatesFor(other, p) == CandidatesFor(catalog, p)
    ensures !HasSelector(p) ==> CandidatesFor(catalog, p) == Ok([])
  {
    if !HasText(p.showId) && !HasText(p.showName) && HasTopics(p.topics) {
      var shows := catalog.search(Join(p.topics.value, " OR "), 5);
      if shows.Some? {
        TopicEpisodesFromCatalog(catalog, shows.value);
      }
    }
  }

  /** The fan-out over two runs of shows is the concatenation of the two. */
  lemma {:induction false} TopicEpisodesAppend(catalog: Catalog, a: seq<Show>, b: seq<Show>)
    requires TopicEpisodes(catalog, a).Ok? && TopicEpisodes(catalog, b).Ok?
    ensures TopicEpisodes(catalog, a + b) == Ok(TopicEpisodes(catalog, a).value + TopicEpisodes(catalog, b).value)
    decreases |b|
  {
    if b == [] {
      assert a + b == a;
      assert TopicEpisodes(catalog, a).value + [] == TopicEpisodes(catalog, a).value;
    } else {
      var b' := b[..|b| - 1];
      assert (a + b)[..|a + b| - 1] == a + b';
      assert (a + b)[|a + b| - 1] == b[|b| - 1];
      assert TopicEpisodes(catalog, b').Ok?;
      TopicEpisodesAppend(catalog, a, b');
      var more := catalog.showEpisodes(b[|b| - 1].id.value, 3).value;
      assert TopicEpisodes(catalog, b).value == TopicEpisodes(catalog, b').value + more;
      assert TopicEpisodes(catalog, a + b).value == TopicEpisodes(catalog, a + b').value + more;
      var x, y := TopicEpisodes(catalog, a).value, TopicEpisodes(catalog, b').value;
      assert (x + y) + more == x + (y + more);
    }
  }

  /** The settings of one discovery pass. `stamp` is the `discovered_at` text, if any. */
  datatype Rules = Rules(judge: Judge, threshold: real, cap: int, stamp: Option<string>)

  /** The dedup set and the accepted entries so far. */
  datatype Scan = Scan(processed: set<string>, found: seq<EpisodeData>)

  /**
   * One candidate: a non-dictionary or an id-less item is skipped without
   * being remembered; a remembered id is skipped; otherwise the id is
   * remembered first, and the item is accepted when it passes the duration
   * filter and the judge scores it at least at the threshold and summarises
   * it. A judge call that raises skips the item.
   */
  function Consider(s: Scan, c: CatalogEntry, p: Preference, r: Rules): Scan {
    match c
    case NotRecord => s
    case Record(e) =>
      if e.id.None? || e.id.value in s.processed then s
      else
        var seen := s.processed + {e.id.value};
        if !DurationOk(e, p) then Scan(seen, s.found)
        else
          match r.judge.evaluate(e, p)
          case None => Scan(seen, s.found)
          case Some(v) =>
            if v.score < r.threshold then Scan(seen, s.found)
            else
              match r.judge.summarize(e)
              case None => Scan(seen, s.found)
              case Some(summary) =>
                Scan(seen, s.found + [EpisodeData(e, v.score, v.reasoning, summary, Describe(p), r.stamp)])
  }

  /** The candidates of one preference, stopping right after an acceptance that reaches the cap. */
  function ScanItems(s: Scan, items: seq<CatalogEntry>, p: Preference, r: Rules): Scan
    decreases |items|
  {
    if items == [] then s
    else
      var t := Consider(s, items[0], p, r);
      if |t.found| > |s.found| && |t.found| >= r.cap then t
      else ScanItems(t, items[1..], p, r)
  }

  /** A scan that stopped early, with the reason, or one that ran to its end. */
  datatype Survey = Survey(scan: Scan, failure: Option<string>)

  /**
   * `check_for_new_episodes` before the sort: the preferences in order, each
   * scanned after its candidates are fetched, stopping once the cap is
   * reached. A failed fetch ends the pass; the ids remembered so far stay.
   */
  function ScanPrefs(s: Scan, prefs: seq<Preference>, catalog: Catalog, r: Rules): Survey
    decreases |prefs|
  {
    if prefs == [] then Survey(s, None)
    else
      match CandidatesFor(catalog, prefs[0])
      case Err(e) => Survey(s, Some(e))
      case Ok(items) =>
        var t := ScanItems(s, items, prefs[0], r);
        if |t.found| >= r.cap then Survey(t, None)
        else ScanPrefs(t, prefs[1..], catalog, r)
  }

  /** What makes an entry acceptable under a preference. */
  predicate Qualifies(d: EpisodeData, p: Preference, r: Rules) {
    DurationOk(d.episode, p)
    && r.judge.evaluate(d.episode, p) == Some(Verdict(d.score, d.reasoning))
    && d.score >= r.threshold
    && r.judge.summarize(d.episode) == Some(d.summary)
    && d.preference == Describe(p)
    && d.discoveredAt == r.stamp
  }

  predicate Accepted(d: EpisodeData, ps: seq<Preference>, r: Rules) {
    d.episode.id.Some? && exists p :: p in ps && Qualifies(d, p, r)
  }

  function IdOf(d: EpisodeData): string {
    if d.episode.id.Some? then d.episode.id.value else ""
  }

  /**
   * `t` continues `s`: the dedup set only grows, the accepted entries so far
   * are kept, and each new entry is acceptable under one of `ps`, has an id
   * that was not remembered before and is remembered now, and no two new
   * entries share an id.
   */
  predicate Extends(s: Scan, t: Scan, ps: seq<Preference>, r: Rules) {
    s.processed <= t.processed
    && |s.found| <= |t.found| && t.found[..|s.found|] == s.found
    && (forall k :: |s.found| <= k < |t.found| ==> Accepted(t.found[k], ps, r))
    && (forall k :: |s.found| <= k < |t.found| ==> IdOf(t.found[k]) in t.processed && IdOf(t.found[k]) !in s.processed)
    && (forall j, k :: |s.found| <= j < k < |t.found| ==> IdOf(t.found[j]) != IdOf(t.found[k]))
  }

  lemma ExtendsRefl(s: Scan, ps: seq<Preference>, r: Rules)
    ensures Extends(s, s, ps, r)
  {
  }

  lemma ExtendsTrans(a: Scan, b: Scan, c: Scan, ps: seq<Preference>, r: Rules)
    requires Extends(a, b, ps, r) && Extends(b, c, ps, r)
    ensures Extends(a, c, ps, r)
  {
    forall k | |a.found| <= k < |b.found|
      ensures c.found[k] == b.found[k]
    {
      assert c.found[..|b.found|][k] == c.found[k];
    }
    assert c.found[..|a.found|] == c.found[..|b.found|][..|a.found|];
  }

  lemma ExtendsWiden(s: Scan, t: Scan, ps: seq<Preference>, qs: seq<Preference>, r: Rules)
    requires Extends(s, t, ps, r)
    requires forall p :: p in ps ==> p in qs
    ensures Extends(s, t, qs, r)
  {
  }

  lemma ConsiderExtends(s: Scan, c: CatalogEntry, p: Preference, r: Rules)
    ensures Extends(s, Consider(s, c, p, r), [p], r)
    ensures |Consider(s, c, p, r).found| <= |s.found| + 1
  {
    var t := Consider(s, c, p, r);
    if |t.found| > |s.found| {
      assert p in [p];
      assert Qualifies(t.found[|s.found|], p, r);
    }
  }

  lemma {:induction false} ScanItemsExtends(s: Scan, items: seq<CatalogEntry>, p: Preference, r: Rules)
    ensures Extends(s, ScanItems(s, items, p, r), [p], r)
    decreases |items|
  {
    if items == [] {
      ExtendsRefl(s, [p], r);
    } else {
      var t := Consider(s, items[0], p, r);
      ConsiderExtends(s, items[0], p, r);
      if !(|t.found| > |s.found| && |t.found| >= r.cap) {
        ScanItemsExtends(t, items[1..], p, r);
        ExtendsTrans(s, t, ScanItems(t, items[1..], p, r), [p], r);
      }
    }
  }

  lemma {:induction false} ScanPrefsExtends(s: Scan, prefs: seq<Preference>, catalog: Catalog, r: Rules)
    ensures Extends(s, ScanPrefs(s, prefs, catalog, r).scan, prefs, r)
    decreases |prefs|
  {
    if prefs == [] {
      ExtendsRefl(s, prefs, r);
    } else if CandidatesFor(catalog, prefs[0]).Err? {
      ExtendsRefl(s, prefs, r);
    } else {
      var items := CandidatesFor(catalog, prefs[0]).value;
      var t := ScanItems(s, items, prefs[0], r);
      ScanItemsExtends(s, items, prefs[0], r);
      ExtendsWiden(s, t, [prefs[0]], prefs, r);
      if |t.found| < r.cap {
        var u := ScanPrefs(t, prefs[1..], catalog, r).scan;
        ScanPrefsExtends(t, prefs[1..], catalog, r);
        ExtendsWiden(t, u, prefs[1..], prefs, r);
        ExtendsTrans(s, t, u, prefs, r);
      }
    }
  }

  /**
   * A whole pass from an empty result: every entry found is acceptable under
   * one of the preferences (duration, score at least the threshold, the
   * judge's own verdict and summary), its id was not remembered before the
   * pass and is remembered after it, and no id is found twice.
   */
  lemma DiscoveredAreFreshAndRelevant(processed: set<string>, prefs: seq<Preference>, catalog: Catalog, r: Rules)
    ensures var t := ScanPrefs(Scan(processed, []), prefs, catalog, r).scan;
      processed <= t.processed
      && (forall d :: d in t.found ==> Accepted(d, prefs, r) && IdOf(d) in t.processed && IdOf(d) !in processed)
      && (forall j, k :: 0 <= j < k < |t.found| ==> IdOf(t.found[j]) != IdOf(t.found[k]))
  {
    ScanPrefsExtends(Scan(processed, []), prefs, catalog, r);
  }

  function Max(a: int, b: int): int {
    if a >= b then a else b
  }

  lemma {:induction false} ScanItemsCap(s: Scan, items: seq<CatalogEntry>, p: Preference, r: Rules)
    requires |s.found| < Max(r.cap, 1)
    ensures |ScanItems(s, items, p, r).found| <= Max(r.cap, 1)
    decreases |items|
  {
    if items != [] {
      var t := Consider(s, items[0], p, r);
      ConsiderExtends(s, items[0], p, r);
      if !(|t.found| > |s.found| && |t.found| >= r.cap) {
        ScanItemsCap(t, items[1..], p, r);
      }
    }
  }

  /**
   * The cap: a pass never accepts more than `max_episodes_per_run` entries
   * (one, when the cap is below one).
   */
  lemma {:induction false} ScanPrefsCap(s: Scan, prefs: seq<Preference>, catalog: Catalog, r: Rules)
    requires |s.found| < Max(r.cap, 1)
    ensures |ScanPrefs(s, prefs, catalog, r).scan.found| <= Max(r.cap, 1)
    decreases |prefs|
  {
    if prefs != [] && CandidatesFor(catalog, prefs[0]).Ok? {
      var items := CandidatesFor(catalog, prefs[0]).value;
      var t := ScanItems(s, items, prefs[0], r);
      ScanItemsCap(s, items, prefs[0], r);
      if |t.found| < r.cap {
        ScanPrefsCap(t, prefs[1..], catalog, r);
      }
    }
  }

  /**
   * Evaluation stops at the cap: once an acceptance reaches it, the later
   * candidates of that preference are not looked at.
   */
  lemma {:induction false} ScanItemsStops(s: Scan, items: seq<CatalogEntry>, rest: seq<CatalogEntry>, p: Preference, r: Rules)
    requires |ScanItems(s, items, p, r).found| > |s.found| && |ScanItems(s, items, p, r).found| >= r.cap
    ensures ScanItems(s, items + rest, p, r) == ScanItems(s, items, p, r)
    decreases |items|
  {
    assert items != [];
    assert (items + rest)[0] == items[0];
    assert (items + rest)[1..] == items[1..] + rest;
    var t := Consider(s, items[0], p, r);
    ConsiderExtends(s, items[0], p, r);
    if !(|t.found| > |s.found| && |t.found| >= r.cap) {
      assert ScanItems(s, items, p, r) == ScanItems(t, items[1..], p, r);
      ScanItemsStops(t, items[1..], rest, p, r);
    }
  }

  /** Once the cap is reached, the later preferences are not even fetched. */
  lemma {:induction false} ScanPrefsStops(s: Scan, prefs: seq<Preference>, more: seq<Preference>, catalog: Catalog, r: Rules)
    requires prefs != []
    requires ScanPrefs(s, prefs, catalog, r).failure.None?
    requires |ScanPrefs(s, prefs, catalog, r).scan.found| >= r.cap
    ensures ScanPrefs(s, prefs + more, catalog, r) == ScanPrefs(s, prefs, catalog, r)
    decreases |prefs|
  {
    assert (prefs + more)[0] == prefs[0];
    assert (prefs + more)[1..] == prefs[1..] + more;
    var items := CandidatesFor(catalog, prefs[0]).value;
    var t := ScanItems(s, items, prefs[0], r);
    if |t.found| < r.cap {
      ScanPrefsStops(t, prefs[1..], more, catalog, r);
    }
  }

  /** One question put to the judge: a score for an episode under a preference, or a summary. */
  datatype JudgeCall = Evaluate(episode: Episode, pref: Preference) | Summarize(subject: Episode)

  /** Both judges give the same answer to every call of `calls`. */
  predicate SameAnswers(j: Judge, k: Judge, calls: seq<JudgeCall>) {
    forall i :: 0 <= i < |calls| ==>
      match calls[i]
      case Evaluate(e, p) => j.evaluate(e, p) == k.evaluate(e, p)
      case Summarize(e) => j.summarize(e) == k.summarize(e)
  }

  /**
   * The judge calls `Consider` makes, in order: none for an item it skips
   * before the judge (not a dictionary, no id, an id already remembered, a
   * duration outside the bounds), a score request otherwise, and a summary
   * request only after a score at or above the threshold.
   */
  function ConsiderCalls(s: Scan, c: CatalogEntry, p: Preference, r: Rules): seq<JudgeCall> {
    match c
    case NotRecord => []
    case Record(e) =>
      if e.id.None? || e.id.value in s.processed || !DurationOk(e, p) then []
      else
        match r.judge.evaluate(e, p)
        case None => [Evaluate(e, p)]
        case Some(v) => if v.score < r.threshold then [Evaluate(e, p)] else [Evaluate(e, p), Summarize(e)]
  }

  /** The judge calls of the item loop of one preference. */
  function ScanItemsCalls(s: Scan, items: seq<CatalogEntry>, p: Preference, r: Rules): seq<JudgeCall>
    decreases |items|
  {
    if items == [] then []
    else
      var t := Consider(s, items[0], p, r);
      ConsiderCalls(s, items[0], p, r)
      + (if |t.found| > |s.found| && |t.found| >= r.cap then [] else ScanItemsCalls(t, items[1..], p, r))
  }

  /** The judge calls of a whole pass over the preferences. */
  function ScanPrefsCalls(s: Scan, prefs: seq<Preference>, catalog: Catalog, r: Rules): seq<JudgeCall>
    decreases |prefs|
  {
    if prefs == [] then []
    else
      match CandidatesFor(catalog, prefs[0])
      case Err(_) => []
      case Ok(items) =>
        var t := ScanItems(s, items, prefs[0], r);
        ScanItemsCalls(s, items, prefs[0], r)
        + (if |t.found| >= r.cap then [] else ScanPrefsCalls(t, prefs[1..], catalog, r))
  }

  /**
   * Every score request is about an episode with an id that was not
   * remembered before and is remembered after, that fits the bounds of the
   * preference it is asked under, one of `prefs`.
   */
  predicate FreshRequests(calls: seq<JudgeCall>, before: set<string>, after: set<string>, prefs: seq<Preference>) {
    forall i :: 0 <= i < |calls| && calls[i].Evaluate? ==>
      calls[i].episode.id.Some? && calls[i].episode.id.value !in before && calls[i].episode.id.value in after
      && DurationOk(calls[i].episode, calls[i].pref) && calls[i].pref in prefs
  }

  /** No episode id is scored twice. */
  predicate DistinctRequests(calls: seq<JudgeCall>) {
    forall i, k :: 0 <= i < k < |calls| && calls[i].Evaluate? && calls[k].Evaluate? ==>
      calls[i].episode.id != calls[k].episode.id
  }

  /** Every summary request comes right after a score request for the same episode that reached the threshold. */
  predicate SummariesAfterPass(calls: seq<JudgeCall>, r: Rules) {
    forall i :: 0 <= i < |calls| && calls[i].Summarize? ==>
      0 < i && calls[i - 1].Evaluate? && calls[i - 1].episode == calls[i].subject
      && r.judge.evaluate(calls[i - 1].episode, calls[i - 1].pref).Some?
      && r.judge.evaluate(calls[i - 1].episode, calls[i - 1].pref).value.score >= r.threshold
  }

  /** What the calls of one item are, and when there are any. */
  lemma ConsiderCallsMeaning(s: Scan, c: CatalogEntry, p: Preference, r: Rules)
    ensures var calls := ConsiderCalls(s, c, p, r);
      (calls != [] <==> c.Record? && c.episode.id.Some? && c.episode.id.value !in s.processed && DurationOk(c.episode, p))
      && (calls != [] ==> calls[0] == Evaluate(c.episode, p))
      && |calls| <= 2
      && (|calls| == 2 <==> calls != [] && r.judge.evaluate(c.episode, p).Some?
                             && r.judge.evaluate(c.episode, p).value.score >= r.threshold)
      && (|calls| == 2 ==> calls[1] == Summarize(c.episode))
  {
  }

  lemma SameAnswersSplit(j: Judge, k: Judge, a: seq<JudgeCall>, b: seq<JudgeCall>)
    requires SameAnswers(j, k, a + b)
    ensures SameAnswers(j, k, a) && SameAnswers(j, k, b)
  {
    forall i | 0 <= i < |a| ensures (a + b)[i] == a[i] { }
    forall i | 0 <= i < |b| ensures (a + b)[|a| + i] == b[i] { }
  }

  /**
   * One item depends on the judge only through the calls it makes: a judge
   * that answers those calls alike gives the same step and the same calls.
   */
  lemma ConsiderAsksOnly(s: Scan, c: CatalogEntry, p: Preference, r: Rules, j: Judge)
    requires SameAnswers(r.judge, j, ConsiderCalls(s, c, p, r))
    ensures Consider(s, c, p, r.(judge := j)) == Consider(s, c, p, r)
    ensures ConsiderCalls(s, c, p, r.(judge := j)) == ConsiderCalls(s, c, p, r)
  {
    var calls := ConsiderCalls(s, c, p, r);
    ConsiderCallsMeaning(s, c, p, r);
    if calls != [] {
      assert calls[0] == Evaluate(c.episode, p);
      if |calls| == 2 {
        assert calls[1] == Summarize(c.episode);
      }
    }
  }

  /** An item skipped before the judge gives the same step whatever the judge. */
  lemma SkippedItemIgnoresJudge(s: Scan, c: CatalogEntry, p: Preference, r: Rules, j: Judge)
    requires c.Record? ==> c.episode.id.None? || c.episode.id.value in s.processed || !DurationOk(c.episode, p)
    ensures Consider(s, c, p, r.(judge := j)) == Consider(s, c, p, r)
  {
    ConsiderCallsMeaning(s, c, p, r);
    ConsiderAsksOnly(s, c, p, r, j);
  }

  /** Below the threshold, or when scoring fails, the summariser is not consulted. */
  lemma LowScoreIgnoresSummary(s: Scan, c: CatalogEntry, p: Preference, r: Rules, summarize: Episode -> Option<string>)
    requires c.Record? ==> r.judge.evaluate(c.episode, p).None? || r.judge.evaluate(c.episode, p).value.score < r.threshold
    ensures Consider(s, c, p, r.(judge := r.judge.(summarize := summarize))) == Consider(s, c, p, r)
  {
    ConsiderCallsMeaning(s, c, p, r);
    ConsiderAsksOnly(s, c, p, r, r.judge.(summarize := summarize));
  }

  /** The item loop depends on the judge only through its calls. */
  lemma {:induction false} ScanItemsAsksOnly(s: Scan, items: seq<CatalogEntry>, p: Preference, r: Rules, j: Judge)
    requires SameAnswers(r.judge, j, ScanItemsCalls(s, items, p, r))
    ensures ScanItems(s, items, p, r.(judge := j)) == ScanItems(s, items, p, r)
    ensures ScanItemsCalls(s, items, p, r.(judge := j)) == ScanItemsCalls(s, items, p, r)
    decreases |items|
  {
    if items != [] {
      var t := Consider(s, items[0], p, r);
      var stop := |t.found| > |s.found| && |t.found| >= r.cap;
      var rest := if stop then [] else ScanItemsCalls(t, items[1..], p, r);
      SameAnswersSplit(r.judge, j, ConsiderCalls(s, items[0], p, r), rest);
      ConsiderAsksOnly(s, items[0], p, r, j);
      if !stop {
        ScanItemsAsksOnly(t, items[1..], p, r, j);
      }
    }
  }

  /**
   * A whole pass depends on the judge only through its calls: two judges that
   * answer every call of the pass alike give the same result.
   */
  lemma {:induction false} ScanPrefsAsksOnly(s: Scan, prefs: seq<Preference>, catalog: Catalog, r: Rules, j: Judge)
    requires SameAnswers(r.judge, j, ScanPrefsCalls(s, prefs, catalog, r))
    ensures ScanPrefs(s, prefs, catalog, r.(judge := j)) == ScanPrefs(s, prefs, catalog, r)
    ensures ScanPrefsCalls(s, prefs, catalog, r.(judge := j)) == ScanPrefsCalls(s, prefs, catalog, r)
    decreases |prefs|
  {
    if prefs != [] && CandidatesFor(catalog, prefs[0]).Ok? {
      var items := CandidatesFor(catalog, prefs[0]).value;
      var t := ScanItems(s, items, prefs[0], r);
      var rest := if |t.found| >= r.cap then [] else ScanPrefsCalls(t, prefs[1..], catalog, r);
      SameAnswersSplit(r.judge, j, ScanItemsCalls(s, items, prefs[0], r), rest);
      ScanItemsAsksOnly(s, items, prefs[0], r, j);
      if |t.found| < r.cap {
        ScanPrefsAsksOnly(t, prefs[1..], catalog, r, j);
      }
    }
  }

  /** The three properties of a call log, for two logs one after the other. */
  lemma RequestsAppend(a: seq<JudgeCall>, b: seq<JudgeCall>, s0: set<string>, s1: set<string>, s2: set<string>,
                       prefs: seq<Preference>, r: Rules)
    requires s0 <= s1 <= s2
    requires FreshRequests(a, s0, s1, prefs) && DistinctRequests(a) && SummariesAfterPass(a, r)
    requires FreshRequests(b, s1, s2, prefs) && DistinctRequests(b) && SummariesAfterPass(b, r)
    requires b != [] ==> b[0].Evaluate?
    ensures FreshRequests(a + b, s0, s2, prefs) && DistinctRequests(a + b) && SummariesAfterPass(a + b, r)
  {
    var ab := a + b;
    forall i | |a| <= i < |ab| ensures ab[i] == b[i - |a|] { }
    forall i | 0 <= i < |a| ensures ab[i] == a[i] { }
    forall i, k | 0 <= i < k < |ab| && ab[i].Evaluate? && ab[k].Evaluate?
      ensures ab[i].episode.id != ab[k].episode.id
    {
      if k < |a| {
      } else if i >= |a| {
        assert ab[i] == b[i - |a|] && ab[k] == b[k - |a|];
      } else {
        assert ab[i] == a[i] && ab[k] == b[k - |a|];
      }
    }
  }

  /**
   * The item loop asks the judge only about fresh episodes that fit the
   * preference's bounds, never twice about the same id, and for a summary
   * only right after a score that reached the threshold.
   */
  lemma {:induction false} ScanItemsCallsFresh(s: Scan, items: seq<CatalogEntry>, p: Preference, r: Rules)
    ensures var calls := ScanItemsCalls(s, items, p, r);
      FreshRequests(calls, s.processed, ScanItems(s, items, p, r).processed, [p])
      && DistinctRequests(calls) && SummariesAfterPass(calls, r)
      && (calls != [] ==> calls[0].Evaluate?)
    decreases |items|
  {
    if items != [] {
      var t := Consider(s, items[0], p, r);
      var here := ConsiderCalls(s, items[0], p, r);
      ConsiderRequestsFresh(s, items[0], p, r);
      var stop := |t.found| > |s.found| && |t.found| >= r.cap;
      var last := ScanItems(s, items, p, r);
      if stop {
        assert ScanItemsCalls(s, items, p, r) == here + [];
        RequestsAppend(here, [], s.processed, t.processed, t.processed, [p], r);
      } else {
        ScanItemsCallsFresh(t, items[1..], p, r);
        assert t.processed <= last.processed by {
          ScanItemsExtends(t, items[1..], p, r);
        }
        RequestsAppend(here, ScanItemsCalls(t, items[1..], p, r), s.processed, t.processed, last.processed, [p], r);
      }
    }
  }

  /** The calls for one item are fresh, asked once each, summaries after a pass, and start with a score request. */
  lemma ConsiderRequestsFresh(s: Scan, c: CatalogEntry, p: Preference, r: Rules)
    ensures var t := Consider(s, c, p, r);
      var here := ConsiderCalls(s, c, p, r);
      s.processed <= t.processed
      && FreshRequests(here, s.processed, t.processed, [p]) && DistinctRequests(here) && SummariesAfterPass(here, r)
      && (here != [] ==> here[0].Evaluate?)
  {
    var t := Consider(s, c, p, r);
    ConsiderCallsMeaning(s, c, p, r);
    assert s.processed <= t.processed by {
      ConsiderExtends(s, c, p, r);
    }
    var here := ConsiderCalls(s, c, p, r);
    assert here != [] ==> here[0].episode.id.value in t.processed;
  }

  /** Fresh requests under some preferences are fresh under any list holding them. */
  lemma FreshWiden(calls: seq<JudgeCall>, before: set<string>, after: set<string>, ps: seq<Preference>, qs: seq<Preference>)
    requires FreshRequests(calls, before, after, ps)
    requires forall p :: p in ps ==> p in qs
    ensures FreshRequests(calls, before, after, qs)
  {
  }

  /**
   * Over a whole pass: the judge is asked about each episode id at most once,
   * only about ids not remembered when the pass began (and remembered after
   * it), only about episodes that fit the bounds of the preference they are
   * scored under, and for a summary only after a score that reached the
   * threshold.
   */
  lemma {:induction false} ScanPrefsCallsFresh(s: Scan, prefs: seq<Preference>, catalog: Catalog, r: Rules)
    ensures var calls := ScanPrefsCalls(s, prefs, catalog, r);
      FreshRequests(calls, s.processed, ScanPrefs(s, prefs, catalog, r).scan.processed, prefs)
      && DistinctRequests(calls) && SummariesAfterPass(calls, r)
      && (calls != [] ==> calls[0].Evaluate?)
    decreases |prefs|
  {
    if prefs != [] && CandidatesFor(catalog, prefs[0]).Ok? {
      var items := CandidatesFor(catalog, prefs[0]).value;
      var t := ScanItems(s, items, prefs[0], r);
      var here := ScanItemsCalls(s, items, prefs[0], r);
      ScanItemsCallsFresh(s, items, prefs[0], r);
      assert s.processed <= t.processed by {
        ScanItemsExtends(s, items, prefs[0], r);
      }
      FreshWiden(here, s.processed, t.processed, [prefs[0]], prefs);
      if |t.found| >= r.cap {
        assert ScanPrefsCalls(s, prefs, catalog, r) == here + [];
        RequestsAppend(here, [], s.processed, t.processed, t.processed, prefs, r);
      } else {
        var last := ScanPrefs(t, prefs[1..], catalog, r).scan;
        ScanPrefsCallsFresh(t, prefs[1..], catalog, r);
        assert t.processed <= last.processed by {
          ScanPrefsExtends(t, prefs[1..], catalog, r);
        }
        FreshWiden(ScanPrefsCalls(t, prefs[1..], catalog, r), t.processed, last.processed, prefs[1..], prefs);
        RequestsAppend(here, ScanPrefsCalls(t, prefs[1..], catalog, r), s.processed, t.processed, last.processed, prefs, r);
      }
    }
  }
}
