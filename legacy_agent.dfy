/**
 * The original single-process agent, which calls the music service and the
 * judge directly instead of through tool servers. Its discovery contains every
 * fetch failure inside the preference it belongs to, its delivery has no
 * pending fallback, and its constructor lowers a high relevance threshold.
 */
module LegacyAgent {
  import opened Wrappers
  import opened Text
  import opened Config
  import opened Episodes
  import opened Sorting
  import opened Discovery
  import opened Delivery
  import opened McpAgent

  /** The constructor's threshold rule: above 0.7 becomes 0.5; anything else is kept. */
  function LoweredThreshold(t: real): (r: real)
    ensures r <= 0.7
    ensures t <= 0.7 ==> r == t
    ensures t > 0.7 ==> r == 0.5
  {
    if t > 0.7 then 0.5 else t
  }

  /** The topic fan-out: three episodes of each show found; a show without an id or whose lookup raises is skipped. */
  function FanOut(catalog: Catalog, shows: seq<Show>): seq<CatalogEntry>
    decreases |shows|
  {
    if shows == [] then []
    else
      var show := shows[|shows| - 1];
      FanOut(catalog, shows[..|shows| - 1])
      + (if show.id.Some? && catalog.showEpisodes(show.id.value, 3).Some? then catalog.showEpisodes(show.id.value, 3).value else [])
  }

  /**
   * The candidates of one preference, or None where the preference is skipped
   * outright (no selector, or a show name the search does not find). A failing
   * fetch gives no candidates for this preference only.
   */
  function LegacyCandidates(catalog: Catalog, p: Preference): Option<seq<CatalogEntry>> {
    if HasText(p.showId) then
      match catalog.showEpisodes(p.showId.value, 10)
      case None => Some([])
      case Some(es) => Some(es)
    else if HasText(p.showName) then
      match catalog.search(p.showName.value, 1)
      case None => Some([])
      case Some(shows) =>
        if shows == [] then None
        else if shows[0].id.None? then Some([])
        else
          match catalog.showEpisodes(shows[0].id.value, 10)
          case None => Some([])
          case Some(es) => Some(es)
    else if HasTopics(p.topics) then
      match catalog.search(Join(p.topics.value, " OR "), 5)
      case None => Some([])
      case Some(shows) => Some(FanOut(catalog, shows))
    else None
  }

  /**
   * `check_for_new_episodes` before the sort. A skipped preference does not
   * reach the cap check at the end of the loop body; the others are scanned
   * exactly as in the tool-based agent, without a `discovered_at` stamp.
   */
  function LegacyScan(s: Scan, prefs: seq<Preference>, catalog: Catalog, r: Rules): Scan
    decreases |prefs|
  {
    if prefs == [] then s
    else
      match LegacyCandidates(catalog, prefs[0])
      case None => LegacyScan(s, prefs[1..], catalog, r)
      case Some(items) =>
        var t := ScanItems(s, items, prefs[0], r);
        if |t.found| >= r.cap then t
        else LegacyScan(t, prefs[1..], catalog, r)
  }

  /** The fan-out over two runs of shows is the concatenation of the two. */
  lemma {:induction false} FanOutAppend(catalog: Catalog, a: seq<Show>, b: seq<Show>)
    ensures FanOut(catalog, a + b) == FanOut(catalog, a) + FanOut(catalog, b)
    decreases |b|
  {
    if b == [] {
      assert a + b == a;
    } else {
      var b' := b[..|b| - 1];
      assert (a + b)[..|a + b| - 1] == a + b';
      assert (a + b)[|a + b| - 1] == b[|b| - 1];
      FanOutAppend(catalog, a, b');
    }
  }

  /** A failing show contributes nothing, and the shows around it still contribute. */
  lemma FanOutSkipsFailing(catalog: Catalog, a: seq<Show>, bad: Show, b: seq<Show>)
    requires bad.id.None? || catalog.showEpisodes(bad.id.value, 3).None?
    ensures FanOut(catalog, a + [bad] + b) == FanOut(catalog, a) + FanOut(catalog, b)
  {
    FanOutAppend(catalog, a + [bad], b);
    FanOutAppend(catalog, a, [bad]);
    FanOutOfFailing(catalog, bad);
    assert FanOut(catalog, a + [bad]) == FanOut(catalog, a);
  }

  lemma FanOutOfFailing(catalog: Catalog, bad: Show)
    requires bad.id.None? || catalog.showEpisodes(bad.id.value, 3).None?
    ensures FanOut(catalog, [bad]) == []
  {
    assert [bad][..0] == [];
  }

  lemma {:induction false} FanOutFromCatalog(catalog: Catalog, shows: seq<Show>)
    ensures forall x :: x in FanOut(catalog, shows) ==> FromCatalog(catalog, x)
    decreases |shows|
  {
    if shows != [] {
      FanOutFromCatalog(catalog, shows[..|shows| - 1]);
    }
  }

  /**
   * Every candidate comes from the catalogue, and a preference is skipped
   * exactly when it has no selector or its show name finds no show.
   */
  lemma LegacyCandidatesMeaning(catalog: Catalog, p: Preference)
    ensures LegacyCandidates(catalog, p).Some? ==>
            forall x :: x in LegacyCandidates(catalog, p).value ==> FromCatalog(catalog, x)
    ensures LegacyCandidates(catalog, p).None? <==>
            !HasSelector(p)
            || (!HasText(p.showId) && HasText(p.showName) && catalog.search(p.showName.value, 1) == Some([]))
  {
    if !HasText(p.showId) && !HasText(p.showName) && HasTopics(p.topics) {
      var shows := catalog.search(Join(p.topics.value, " OR "), 5);
      if shows.Some? {
        FanOutFromCatalog(catalog, shows.value);
      }
    }
  }

  /**
   * Where a show lookup raises, the tool-based agent abandons the whole pass
   * while this agent only loses that preference's candidates.
   */
  lemma FetchFailureContained(catalog: Catalog, p: Preference)
    requires HasText(p.showId) && catalog.showEpisodes(p.showId.value, 10).None?
    ensures LegacyCandidates(catalog, p) == Some([])
    ensures CandidatesFor(catalog, p) == Err(NoAnswer)
  {
  }

  lemma {:induction false} LegacyScanExtends(s: Scan, prefs: seq<Preference>, catalog: Catalog, r: Rules)
    ensures Extends(s, LegacyScan(s, prefs, catalog, r), prefs, r)
    decreases |prefs|
  {
    if prefs == [] {
      ExtendsRefl(s, prefs, r);
    } else {
      assert forall p :: p in prefs[1..] ==> p in prefs;
      match LegacyCandidates(catalog, prefs[0])
      case None =>
        LegacyScanExtends(s, prefs[1..], catalog, r);
        ExtendsWiden(s, LegacyScan(s, prefs[1..], catalog, r), prefs[1..], prefs, r);
      case Some(items) =>
        var t := ScanItems(s, items, prefs[0], r);
        ScanItemsExtends(s, items, prefs[0], r);
        ExtendsWiden(s, t, [prefs[0]], prefs, r);
        if |t.found| < r.cap {
          var u := LegacyScan(t, prefs[1..], catalog, r);
          LegacyScanExtends(t, prefs[1..], catalog, r);
          ExtendsWiden(t, u, prefs[1..], prefs, r);
          ExtendsTrans(s, t, u, prefs, r);
        }
    }
  }

  /**
   * A whole pass from an empty result: every entry is acceptable under one of
   * the preferences, was not remembered before and is remembered after, and no
   * id is found twice.
   */
  lemma LegacyDiscoveredAreFreshAndRelevant(processed: set<string>, prefs: seq<Preference>, catalog: Catalog, r: Rules)
    ensures var t := LegacyScan(Scan(processed, []), prefs, catalog, r);
      processed <= t.processed
      && (forall d :: d in t.found ==> Accepted(d, prefs, r) && IdOf(d) in t.processed && IdOf(d) !in processed)
      && (forall j, k :: 0 <= j < k < |t.found| ==> IdOf(t.found[j]) != IdOf(t.found[k]))
  {
    LegacyScanExtends(Scan(processed, []), prefs, catalog, r);
  }

  /** The cap holds across preferences (one entry when the cap is below one). */
  lemma {:induction false} LegacyScanCap(s: Scan, prefs: seq<Preference>, catalog: Catalog, r: Rules)
    requires |s.found| < Max(r.cap, 1)
    ensures |LegacyScan(s, prefs, catalog, r).found| <= Max(r.cap, 1)
    decreases |prefs|
  {
    if prefs != [] {
      match LegacyCandidates(catalog, prefs[0])
      case None =>
        LegacyScanCap(s, prefs[1..], catalog, r);
      case Some(items) =>
        var t := ScanItems(s, items, prefs[0], r);
        ScanItemsCap(s, items, prefs[0], r);
        if |t.found| < r.cap {
          LegacyScanCap(t, prefs[1..], catalog, r);
        }
    }
  }

  class PodcastAgent {
    var config: AgentConfig
    var processed: set<string>

    /** The agent starts with no remembered episode and a threshold of at most 0.7. */
    constructor (config: AgentConfig)
      ensures this.config == config.(relevanceThreshold := LoweredThreshold(config.relevanceThreshold))
      ensures processed == {}
    {
      this.config := config.(relevanceThreshold := LoweredThreshold(config.relevanceThreshold));
      processed := {};
    }

    function RulesOf(judge: Judge): Rules
      reads this
    {
      Rules(judge, config.relevanceThreshold, config.maxEpisodesPerRun, None)
    }

    /** The candidate fetch at the top of the preference loop, with the topic fan-out as a loop. */
    method GetCandidates(catalog: Catalog, p: Preference) returns (c: Option<seq<CatalogEntry>>)
      ensures c == LegacyCandidates(catalog, p)
    {
      if HasText(p.showId) {
        var es := catalog.showEpisodes(p.showId.value, 10);
        c := if es.Some? then es else Some([]);
      } else if HasText(p.showName) {
        var shows := catalog.search(p.showName.value, 1);
        if shows.None? {
          c := Some([]);
        } else if shows.value == [] {
          c := None;
        } else if shows.value[0].id.None? {
          c := Some([]);
        } else {
          var es := catalog.showEpisodes(shows.value[0].id.value, 10);
          c := if es.Some? then es else Some([]);
        }
      } else if HasTopics(p.topics) {
        var shows := catalog.search(Join(p.topics.value, " OR "), 5);
        if shows.None? {
          return Some([]);
        }
        var all := shows.value;
        var episodes: seq<CatalogEntry> := [];
        var k := 0;
        while k < |all|
          invariant 0 <= k <= |all|
          invariant FanOut(catalog, all[..k]) == episodes
        {
          assert all[..k + 1][..k] == all[..k];
          var show := all[k];
          if show.id.Some? {
            var more := catalog.showEpisodes(show.id.value, 3);
            if more.Some? {
              episodes := episodes + more.value;
            }
          }
          k := k + 1;
        }
        assert all[..k] == all;
        c := Some(episodes);
      } else {
        c := None;
      }
    }

    /** `check_for_new_episodes`: the scan, then the entries ranked by score, ties in discovery order. */
    method CheckForNewEpisodes(catalog: Catalog, judge: Judge) returns (ranked: seq<EpisodeData>)
      modifies this`processed
      ensures var t := LegacyScan(Scan(old(processed), []), config.preferences, catalog, RulesOf(judge));
        processed == t.processed && ranked == SortDescending(t.found, Score)
    {
      var prefs := config.preferences;
      var rules := RulesOf(judge);
      ghost var goal := LegacyScan(Scan(processed, []), prefs, catalog, rules);
      var found: seq<EpisodeData> := [];
      var i := 0;
      while i < |prefs|
        invariant 0 <= i <= |prefs|
        invariant LegacyScan(Scan(processed, found), prefs[i..], catalog, rules) == goal
      {
        var p := prefs[i];
        assert prefs[i..][0] == p && prefs[i..][1..] == prefs[i + 1..];
        var candidates := GetCandidates(catalog, p);
        if candidates.Some? {
          var items := candidates.value;
          ghost var start := Scan(processed, found);
          var j := 0;
          var stop := false;
          while j < |items| && !stop
            invariant 0 <= j <= |items|
            invariant !stop ==> ScanItems(Scan(processed, found), items[j..], p, rules) == ScanItems(start, items, p, rules)
            invariant stop ==> Scan(processed, found) == ScanItems(start, items, p, rules)
            decreases |items| - j
          {
            ghost var before := Scan(processed, found);
            assert items[j..][0] == items[j] && items[j..][1..] == items[j + 1..];
            if items[j].Record? && items[j].episode.id.Some? && items[j].episode.id.value !in processed {
              var e := items[j].episode;
              processed := processed + {e.id.value};
              if DurationOk(e, p) {
                var verdict := judge.evaluate(e, p);
                if verdict.Some? && verdict.value.score >= rules.threshold {
                  var summary := judge.summarize(e);
                  if summary.Some? {
                    found := found + [EpisodeData(e, verdict.value.score, verdict.value.reasoning, summary.value, Describe(p), None)];
                    if |found| >= rules.cap {
                      stop := true;
                    }
                  }
                }
              }
            }
            assert Scan(processed, found) == Consider(before, items[j], p, rules);
            j := j + 1;
          }
          if !stop {
            assert items[j..] == [];
          }
          if |found| >= rules.cap {
            break;
          }
        }
        i := i + 1;
      }
      ranked := SortDescending(found, Score);
    }

    /** `add_episodes_to_queue`: the episodes the queue call accepts, in order; the rest are dropped. */
    method AddEpisodesToQueue(addToQueue: Json.Value -> Option<bool>, episodes: seq<EpisodeData>) returns (added: seq<EpisodeData>)
      ensures added == WithFate(episodes, addToQueue, Queued)
    {
      added := [];
      var i := 0;
      while i < |episodes|
        invariant 0 <= i <= |episodes|
        invariant added == WithFate(episodes[..i], addToQueue, Queued)
      {
        var d := episodes[i];
        assert episodes[..i + 1][..i] == episodes[..i] && episodes[..i + 1][i] == d;
        if d.episode.uri.Some? && addToQueue(Json.Str(d.episode.uri.value)) == Some(true) {
          added := added + [d];
        }
        i := i + 1;
      }
      assert episodes[..i] == episodes;
    }

    /** `run`: an error without preferences, otherwise discovery followed by delivery. */
    method Run(catalog: Catalog, judge: Judge, addToQueue: Json.Value -> Option<bool>) returns (rep: Report)
      modifies this`processed
      ensures old(config.preferences) == [] ==>
                rep == Report("error", NoPreferences, None, None) && processed == old(processed)
      ensures old(config.preferences) != [] ==>
                var t := LegacyScan(Scan(old(processed), []), config.preferences, catalog, RulesOf(judge));
                var added := WithFate(SortDescending(t.found, Score), addToQueue, Queued);
                processed == t.processed
                && rep == (if t.found == [] then Report("success", NothingNew, None, None)
                           else Report("success", AddedText(|added|), Some(Encodes(added)), None))
    {
      if config.preferences == [] {
        return Report("error", NoPreferences, None, None);
      }
      var relevant := CheckForNewEpisodes(catalog, judge);
      ghost var t := LegacyScan(Scan(old(processed), []), config.preferences, catalog, RulesOf(judge));
      SortIsPermutation(t.found, AtLeast(Score));
      if relevant == [] {
        assert |multiset(t.found)| == 0;
        return Report("success", NothingNew, None, None);
      }
      var added := AddEpisodesToQueue(addToQueue, relevant);
      rep := Report("success", AddedText(|added|), Some(Encodes(added)), None);
    }
  }
}
