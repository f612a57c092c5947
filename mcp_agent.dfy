/**
 * The orchestrating podcast agent that talks to its tool servers: discovery
 * (candidates, dedup, duration filter, judge, threshold, cap, ranking),
 * device-gated delivery with the pending store as fallback, redelivery of
 * pending episodes, and the run that strings them together. One class models
 * both the plain agent and the e-mail-capable one; `enhanced` selects the
 * latter's extra steps (the `discovered_at` stamp and the e-mails).
 */
module McpAgent {
  import opened Wrappers
  import opened Json
  import opened Text
  import opened Config
  import opened Episodes
  import opened Sorting
  import opened PendingStore
  import opened Discovery
  import opened Delivery
  import EmailServer

  /**
   * Everything outside the agent during one call: the catalogue and the judge,
   * the device listing (None where the query raises), the playback queue, the
   * e-mail server, the clock's reading and whether writes of the pending file
   * succeed.
   */
  datatype World = World(
    catalog: Catalog,
    judge: Judge,
    devices: Option<seq<Device>>,
    addToQueue: Value -> Option<bool>,
    mailer: EmailServer.EmailServer,
    now: string,
    saveOk: bool)

  /** The status dictionary `run` and `process_pending_episodes` return, without its timestamp. */
  datatype Report = Report(status: string, message: string, episodes: Option<seq<Value>>, emailSent: Option<bool>)

  /** One request the agent sent to the e-mail server. */
  datatype Mail = Mail(tool: string, arguments: map<string, Value>)

  const NoPreferences: string := "No podcast preferences configured"
  const NoPending: string := "No pending episodes to process"
  const NoDevice: string := "No active Spotify device found - cannot process pending episodes"
  const NothingNew: string := "No new relevant episodes found"

  function ProcessedText(k: nat, n: nat): string {
    "Processed " + NatToString(k) + " of " + NatToString(n) + " pending episodes"
  }

  function AddedText(n: nat): string {
    "Added " + NatToString(n) + " episodes to queue"
  }

  const NoticeTail: string := " great podcast episodes for you, but no active Spotify device was found. They've been saved and will be added to your queue when you next open Spotify!"

  function NotificationMail(to: Option<string>, n: nat): Mail {
    Mail("send_notification",
         map["to_email" := OptStr(to),
             "subject" := Str("\U{1F3B5} " + NatToString(n) + " Podcast Episodes Ready"),
             "message" := Str("I found " + NatToString(n) + NoticeTail)])
  }

  function SummaryMail(to: Option<string>, episodes: seq<Value>): Mail {
    Mail("send_summary_email",
         map["to_email" := OptStr(to),
             "episodes" := List(episodes),
             "subject" := Str("\U{1F3B5} Your Daily Podcast Summary - " + NatToString(|episodes|) + " New Episodes")])
  }

  /** What the e-mail server answers to a mail request, with a raised error turned into a failure. */
  function MailAnswer(mailer: EmailServer.EmailServer, m: Mail): Value {
    match EmailServer.Execute(mailer, Some(Str(m.tool)), Object(m.arguments))
    case Ok(v) => v
    case Err(e) => Object(map["success" := Bool(false), "message" := Str("Error: " + e)])
  }

  /** `email_result.get('success', False)` of an answer. */
  function MailSucceeded(answer: Value): bool {
    var s := GetOr(answer, "success", Bool(false));
    s.Some? && Truthy(s.value)
  }

  /** A delivery without an active device parks a non-empty batch whole. */
  predicate Parked(w: World, episodes: seq<EpisodeData>) {
    !ActiveDevice(w.devices) && episodes != []
  }

  /** The episodes a delivery of `episodes` writes to the pending store: all of a parked batch, else the refused and failing ones. */
  function SentToPending(w: World, episodes: seq<EpisodeData>): seq<EpisodeData> {
    if Parked(w, episodes) then episodes else WithFate(episodes, w.addToQueue, Requeued)
  }

  /** The episodes a delivery of `episodes` puts on the playback queue. */
  function Delivered(w: World, episodes: seq<EpisodeData>): seq<EpisodeData> {
    if Parked(w, episodes) then [] else WithFate(episodes, w.addToQueue, Queued)
  }

  /** Whether redelivering `entries` ends with a removal from the store: some delivered entry had an id. */
  predicate Removes(entries: seq<Value>, w: World) {
    entries != [] && ActiveDevice(w.devices) && RedeliveredIds(entries, w.addToQueue) != []
  }

  /** The removal raises: some pending entry has no `episode.id`. */
  predicate RemovalFails(entries: seq<Value>, w: World) {
    Removes(entries, w) && !AllIdentified(entries)
  }

  /** Redelivering `entries` queues something and its removal does not raise: `run` stops there. */
  predicate Redelivers(entries: seq<Value>, w: World) {
    entries != [] && ActiveDevice(w.devices) && Redelivered(entries, w.addToQueue) != [] && !RemovalFails(entries, w)
  }

  /** The pending list after redelivering `entries`. */
  function PendingAfterRedelivery(entries: seq<Value>, w: World): seq<Value> {
    if Removes(entries, w) && !RemovalFails(entries, w) then Without(entries, RedeliveredIds(entries, w.addToQueue))
    else entries
  }

  /**
   * The e-mail requests a delivery of the non-empty batch `relevant` sends
   * from an agent that mails (`on`) to `to`: the notification when the batch
   * is parked, then the summary when asked for and something was queued or
   * parked.
   */
  function DeliveryMails(on: bool, to: Option<string>, w: World, sendEmailSummary: bool, relevant: seq<EpisodeData>): seq<Mail> {
    NoticeMails(on, to, w, relevant) + SummaryMails(on, to, w, sendEmailSummary, Delivered(w, relevant), relevant)
  }

  /** The notification about a parked batch. */
  function NoticeMails(on: bool, to: Option<string>, w: World, relevant: seq<EpisodeData>): seq<Mail> {
    if Parked(w, relevant) && on then [NotificationMail(to, |relevant|)] else []
  }

  /** The summary after a delivery that queued `added` of `relevant`. */
  function SummaryMails(on: bool, to: Option<string>, w: World, sendEmailSummary: bool, added: seq<EpisodeData>, relevant: seq<EpisodeData>): seq<Mail> {
    if on && sendEmailSummary && (added != [] || !ActiveDevice(w.devices)) then
      [SummaryMail(to, Encodes(if added != [] then added else relevant))]
    else []
  }

  /**
   * `bool(config.user_email)` in the e-mail-capable constructor: whether an
   * address is configured, or the `AttributeError` when the configuration
   * does not declare the field, in which case no agent is built.
   */
  function EmailFlag(declared: set<string>, c: AgentConfig): (r: Result<bool, string>)
    ensures r.Ok? <==> "user_email" in declared
    ensures r.Ok? ==> (r.value <==> HasText(c.userEmail))
    ensures r.Err? ==> r.error == NoAttribute("user_email")
  {
    var read := ReadUserEmail(declared, c);
    if read.Err? then Err(read.error) else Ok(HasText(read.value))
  }

  /** As written, the configuration lacks `user_email`, so the e-mail-capable agent cannot be built. */
  lemma EnhancedConstructionFails(c: AgentConfig)
    ensures EmailFlag(DeclaredFields, c) == Err(NoAttribute("user_email"))
  {
    UserEmailUndeclared();
  }

  /** With the field declared, the flag is whether an address is configured. */
  lemma EnhancedConstructionCorrected(c: AgentConfig)
    ensures EmailFlag(CorrectedFields, c) == Ok(HasText(c.userEmail))
  {
    UserEmailUndeclared();
  }

  class PodcastAgent {
    var config: AgentConfig
    /** `processed_episodes`: the ids already evaluated by this agent. */
    var processed: set<string>
    const store: QueueManager
    const enhanced: bool
    var emailEnabled: bool
    /** The requests sent to the e-mail server so far. */
    ghost var mails: seq<Mail>

    /**
     * A new agent remembers no episode and has sent no mail. The plain agent
     * never mails; the e-mail-capable one sets its flag as `EmailFlag` does on
     * a configuration declaring `user_email` (the corrected declaration).
     */
    constructor (config: AgentConfig, store: QueueManager, enhanced: bool)
      ensures this.config == config && this.store == store && this.enhanced == enhanced
      ensures processed == {} && mails == []
      ensures !enhanced ==> !emailEnabled
      ensures enhanced ==> EmailFlag(CorrectedFields, config) == Ok(emailEnabled)
      ensures emailEnabled == (enhanced && HasText(config.userEmail))
    {
      this.config := config;
      this.store := store;
      this.enhanced := enhanced;
      processed := {};
      emailEnabled := enhanced && HasText(config.userEmail);
      mails := [];
    }

    /** `add_podcast_preference`. */
    method AddPodcastPreference(p: Preference)
      modifies this`config
      ensures config == old(config).(preferences := old(config).preferences + [p])
    {
      config := config.(preferences := config.preferences + [p]);
    }

    /** `reset_processed_episodes`: every id may be evaluated again. */
    method ResetProcessedEpisodes()
      modifies this`processed
      ensures processed == {}
    {
      processed := {};
    }

    function RulesOf(w: World): Rules
      reads this`config
    {
      Rules(w.judge, config.relevanceThreshold, config.maxEpisodesPerRun, if enhanced then Some(w.now) else None)
    }

    /** The discovery pass of one run, from the ids remembered before it. */
    function SurveyOf(w: World, before: set<string>): Survey
      reads this`config
    {
      ScanPrefs(Scan(before, []), config.preferences, w.catalog, RulesOf(w))
    }

    /**
     * The episodes a discovery pass from the ids `before` leaves in the
     * pending store: those a delivery of its ranked findings parks or
     * re-queues, and none when the pass failed or found nothing.
     */
    function ParkedBy(w: World, before: set<string>): seq<EpisodeData>
      reads this`config
    {
      var sv := SurveyOf(w, before);
      if sv.failure.None? && sv.scan.found != [] then SentToPending(w, SortDescending(sv.scan.found, Score)) else []
    }

    /**
     * What discovery and delivery from the ids `before` do: the ids
     * remembered, the report (an error for a failed pass, nothing new for an
     * empty one, else the count and the queued episodes), the pending list
     * going from `p0` to `p1` and the e-mail log from `m0` to `m1`.
     */
    ghost predicate Discovers(w: World, sendEmailSummary: bool, before: set<string>, after: set<string>, rep: Report,
                              p0: seq<Value>, p1: seq<Value>, m0: seq<Mail>, m1: seq<Mail>)
      reads this`config, this`emailEnabled
    {
      var sv := SurveyOf(w, before);
      var ranked := SortDescending(sv.scan.found, Score);
      var added := Delivered(w, ranked);
      var delivers := sv.failure.None? && sv.scan.found != [];
      after == sv.scan.processed
      && (sv.failure.Some? ==> rep == Report("error", "Error: " + sv.failure.value, None, None))
      && (sv.failure.None? && sv.scan.found == [] ==> rep == Report("success", NothingNew, None, None))
      && (delivers ==>
            rep.status == "success" && rep.message == AddedText(|added|) && rep.episodes == Some(Encodes(added))
            && (rep.emailSent.Some? <==> enhanced))
      && p1 == p0 + Stamped(Encodes(ParkedBy(w, before)), w.now)
      && m1 == m0 + (if delivers then DeliveryMails(enhanced && emailEnabled, config.userEmail, w, sendEmailSummary, ranked) else [])
    }

    /**
     * `check_for_new_episodes`: the scan over the preferences, then the
     * accepted entries ranked by score, highest first, ties in discovery order.
     * A failed candidate fetch escapes; the ids remembered until then stay.
     */
    method CheckForNewEpisodes(w: World) returns (r: Result<seq<EpisodeData>, string>)
      modifies this`processed
      ensures var sv := SurveyOf(w, old(processed));
        processed == sv.scan.processed
        && r == (if sv.failure.Some? then Err(sv.failure.value) else Ok(SortDescending(sv.scan.found, Score)))
    {
      var prefs := config.preferences;
      var rules := RulesOf(w);
      ghost var goal := ScanPrefs(Scan(processed, []), prefs, w.catalog, rules);
      var found: seq<EpisodeData> := [];
      var i := 0;
      while i < |prefs|
        invariant 0 <= i <= |prefs|
        invariant ScanPrefs(Scan(processed, found), prefs[i..], w.catalog, rules) == goal
      {
        var p := prefs[i];
        assert prefs[i..][0] == p && prefs[i..][1..] == prefs[i + 1..];
        var candidates := GetEpisodesForPreference(w.catalog, p);
        if candidates.Err? {
          return Err(candidates.error);
        }
        var items := candidates.value;
        ghost var start := Scan(processed, found);
        var j := 0;
        var stop := false;
        while j < |items| && !stop
          invariant 0 <= j <= |items|
          invariant !stop ==> ScanItems(Scan(processed, found), items[j..], p, rules) == ScanItems(start, items, p, rules)
          invariant stop ==> Scan(processed, found) == ScanItems(start, items, p, rules)
          decreases |items| - j
        {
          ghost var before := Scan(processed, found);
          assert items[j..][0] == items[j] && items[j..][1..] == items[j + 1..];
          if items[j].Record? && items[j].episode.id.Some? && items[j].episode.id.value !in processed {
            var e := items[j].episode;
            processed := processed + {e.id.value};
            if DurationOk(e, p) {
              var verdict := w.judge.evaluate(e, p);
              if verdict.Some? && verdict.value.score >= rules.threshold {
                var summary := w.judge.summarize(e);
                if summary.Some? {
                  found := found + [EpisodeData(e, verdict.value.score, verdict.value.reasoning, summary.value, Describe(p), rules.stamp)];
                  if |found| >= rules.cap {
                    stop := true;
                  }
                }
              }
            }
          }
          assert Scan(processed, found) == Consider(before, items[j], p, rules);
          j := j + 1;
        }
        if !stop {
          assert items[j..] == [];
        }
        if |found| >= rules.cap {
          break;
        }
        i := i + 1;
      }
      r := Ok(SortDescending(found, Score));
    }

    /** `_get_episodes_for_preference`, with the topic fan-out as a loop over the shows found. */
    method GetEpisodesForPreference(catalog: Catalog, p: Preference) returns (r: Result<seq<CatalogEntry>, string>)
      ensures r == CandidatesFor(catalog, p)
    {
      if HasText(p.showId) {
        r := Lookup(catalog.showEpisodes(p.showId.value, 10));
      } else if HasText(p.showName) {
        var shows := catalog.search(p.showName.value, 1);
        if shows.None? {
          r := Err(NoAnswer);
        } else if shows.value == [] {
          r := Ok([]);
        } else if shows.value[0].id.None? {
          r := Err("'id'");
        } else {
          r := Lookup(catalog.showEpisodes(shows.value[0].id.value, 10));
        }
      } else if HasTopics(p.topics) {
        var shows := catalog.search(Join(p.topics.value, " OR "), 5);
        if shows.None? {
          return Err(NoAnswer);
        }
        var all := shows.value;
        var episodes: seq<CatalogEntry> := [];
        var k := 0;
        while k < |all|
          invariant 0 <= k <= |all|
          invariant TopicEpisodes(catalog, all[..k]) == Ok(episodes)
        {
          assert all[..k + 1][..k] == all[..k];
          var show := all[k];
          if show.id.None? {
            TopicFailureSticks(catalog, all, k + 1);
            return Err("'id'");
          }
          var more := catalog.showEpisodes(show.id.value, 3);
          if more.None? {
            TopicFailureSticks(catalog, all, k + 1);
            return Err(NoAnswer);
          }
          episodes := episodes + more.value;
          k := k + 1;
        }
        assert all[..k] == all;
        r := Ok(episodes);
      } else {
        r := Ok([]);
      }
    }

    /** `check_spotify_active_device`. */
    method CheckActiveDevice(devices: Option<seq<Device>>) returns (active: bool)
      ensures active == ActiveDevice(devices)
    {
      if devices.None? {
        return false;
      }
      var ds := devices.value;
      var k := 0;
      while k < |ds|
        invariant 0 <= k <= |ds|
        invariant FirstActive(ds) == FirstActive(ds[k..])
      {
        assert ds[k..][0] == ds[k] && ds[k..][1..] == ds[k + 1..];
        if ds[k].Malformed? {
          return false;
        } else if Truthy(ds[k].isActive) {
          return true;
        }
        k := k + 1;
      }
      return false;
    }

    /**
     * `_send_pending_notification`: only with e-mail on and a non-empty
     * batch; a failing send is swallowed.
     */
    method SendPendingNotification(count: nat)
      modifies this`mails
      ensures mails == old(mails) + (if emailEnabled && count > 0 then [NotificationMail(config.userEmail, count)] else [])
    {
      if emailEnabled && count > 0 {
        mails := mails + [NotificationMail(config.userEmail, count)];
      }
    }

    /**
     * `add_episodes_to_queue`. Without an active device a non-empty batch goes
     * to the pending store in one write and nothing is delivered. Otherwise
     * each episode is tried on its own: queued ones are returned in order,
     * refused or failing ones are written back to pending one at a time, and
     * those without a uri are dropped.
     */
    method AddEpisodesToQueue(w: World, episodes: seq<EpisodeData>) returns (added: seq<EpisodeData>)
      modifies store, this`mails
      ensures added == Delivered(w, episodes)
      ensures store.pending == old(store.pending) + Stamped(Encodes(SentToPending(w, episodes)), w.now)
      ensures FileAfter(SentToPending(w, episodes) != [], store.persisted, old(store.persisted), store.pending, w.saveOk)
      ensures mails == old(mails) + NoticeMails(enhanced && emailEnabled, config.userEmail, w, episodes)
    {
      var active := CheckActiveDevice(w.devices);
      if !active && episodes != [] {
        var ok := store.AddPendingEpisodes(Encodes(episodes), w.now, w.saveOk);
        assert Encodes(episodes)[..|episodes|] == Encodes(episodes);
        if enhanced {
          SendPendingNotification(|episodes|);
        }
        return [];
      }
      added := QueueEach(w, episodes);
    }

    /** The queue loop of `add_episodes_to_queue`: each episode queued, re-queued as pending, or dropped. */
    method QueueEach(w: World, episodes: seq<EpisodeData>) returns (added: seq<EpisodeData>)
      modifies store
      ensures var requeued := WithFate(episodes, w.addToQueue, Requeued);
        added == WithFate(episodes, w.addToQueue, Queued)
        && store.pending == old(store.pending) + Stamped(Encodes(requeued), w.now)
        && FileAfter(requeued != [], store.persisted, old(store.persisted), store.pending, w.saveOk)
    {
      added := [];
      var i := 0;
      while i < |episodes|
        invariant 0 <= i <= |episodes|
        invariant added == WithFate(episodes[..i], w.addToQueue, Queued)
        invariant store.pending == old(store.pending) + Stamped(Encodes(WithFate(episodes[..i], w.addToQueue, Requeued)), w.now)
        invariant FileAfter(WithFate(episodes[..i], w.addToQueue, Requeued) != [], store.persisted, old(store.persisted), store.pending, w.saveOk)
      {
        var d := episodes[i];
        assert episodes[..i + 1][..i] == episodes[..i] && episodes[..i + 1][i] == d;
        ghost var before := WithFate(episodes[..i], w.addToQueue, Requeued);
        ghost var after := WithFate(episodes[..i + 1], w.addToQueue, Requeued);
        if d.episode.uri.Some? {
          var result := w.addToQueue(Str(d.episode.uri.value));
          if result == Some(true) {
            added := added + [d];
            assert after == before;
          } else {
            ghost var f1 := store.persisted;
            ghost var p1 := store.pending;
            var ok := store.AddPendingEpisodes([Encode(d)], w.now, w.saveOk);
            RequeueStep(old(store.pending), before, d, w.now);
            assert after == before + [d];
            FileAfterCompose(before != [], true, old(store.persisted), f1, store.persisted, p1, store.pending, w.saveOk);
          }
        } else {
          assert after == before;
        }
        i := i + 1;
      }
      assert episodes[..i] == episodes;
    }

    /**
     * `process_pending_episodes`: an empty store is reported without a device
     * query; without an active device nothing changes. Otherwise each entry
     * with a uri is offered to the playback queue, the queued ones are
     * reported, and the ids of those that have one are removed from the store
     * if there are any. A removal that raises is reported as an error.
     */
    method ProcessPendingEpisodes(w: World) returns (rep: Report)
      modifies store
      ensures var entries := old(store.pending);
        var taken := Redelivered(entries, w.addToQueue);
        (entries == [] ==> rep == Report("success", NoPending, None, None))
        && (entries != [] && !ActiveDevice(w.devices) ==> rep == Report("warning", NoDevice, None, None))
        && (entries != [] && ActiveDevice(w.devices) && !RemovalFails(entries, w) ==>
              rep == Report("success", ProcessedText(|taken|, |entries|), Some(taken), None))
        && (RemovalFails(entries, w) ==> rep == Report("error", "Error: " + NoAnswer, None, None))
        && store.pending == PendingAfterRedelivery(entries, w)
        && FileAfter(Removes(entries, w) && !RemovalFails(entries, w), store.persisted, old(store.persisted), store.pending, w.saveOk)
    {
      var entries := store.PendingEpisodes();
      if entries == [] {
        return Report("success", NoPending, None, None);
      }
      var active := CheckActiveDevice(w.devices);
      if !active {
        return Report("warning", NoDevice, None, None);
      }
      var taken: seq<Value> := [];
      var ids: seq<Value> := [];
      var i := 0;
      while i < |entries|
        invariant 0 <= i <= |entries|
        invariant taken == Redelivered(entries[..i], w.addToQueue)
        invariant ids == RedeliveredIds(entries[..i], w.addToQueue)
      {
        var entry := entries[i];
        assert entries[..i + 1][..i] == entries[..i] && entries[..i + 1][i] == entry;
        var uri := PendingUri(entry);
        if uri.Some? {
          var result := w.addToQueue(uri.value);
          if result == Some(true) {
            taken := taken + [entry];
            var id := EntryId(entry);
            if id.Some? {
              ids := ids + [id.value];
            }
          }
        }
        i := i + 1;
      }
      assert entries[..i] == entries;
      if ids != [] {
        var ok := store.RemoveProcessedEpisodes(ids, w.saveOk);
        if !ok {
          return Report("error", "Error: " + NoAnswer, None, None);
        }
      }
      rep := Report("success", ProcessedText(|taken|, |entries|), Some(taken), None);
    }

    /**
     * `send_episode_summary_email`: nothing is sent with e-mail off or no
     * episodes; otherwise one summary request goes to the e-mail server and
     * its answer is returned.
     */
    method SendEpisodeSummaryEmail(w: World, episodes: seq<Value>) returns (answer: Value)
      modifies this`mails
      ensures !emailEnabled || episodes == [] ==>
                answer == Object(map["success" := Bool(false), "message" := Str("Email not enabled or no episodes")])
                && mails == old(mails)
      ensures emailEnabled && episodes != [] ==>
                answer == MailAnswer(w.mailer, SummaryMail(config.userEmail, episodes))
                && mails == old(mails) + [SummaryMail(config.userEmail, episodes)]
    {
      if !emailEnabled || episodes == [] {
        return Object(map["success" := Bool(false), "message" := Str("Email not enabled or no episodes")]);
      }
      var m := SummaryMail(config.userEmail, episodes);
      mails := mails + [m];
      answer := MailAnswer(w.mailer, m);
    }

    /**
     * `send_weekly_digest`: refused with e-mail off; otherwise the week's
     * listening statistics (None where that call raises) and one digest
     * request.
     */
    method SendWeeklyDigest(w: World, episodes: seq<Value>, stats: Option<Value>) returns (answer: Value)
      modifies this`mails
      ensures !emailEnabled ==>
                answer == Object(map["success" := Bool(false), "message" := Str("Email not enabled")]) && mails == old(mails)
      ensures emailEnabled && stats.None? ==> answer.Object? && Get(answer, "success") == Some(Bool(false)) && mails == old(mails)
      ensures emailEnabled && stats.Some? ==>
                var m := Mail("send_weekly_digest", map["to_email" := OptStr(config.userEmail), "episodes" := List(episodes), "stats" := stats.value]);
                answer == MailAnswer(w.mailer, m) && mails == old(mails) + [m]
    {
      if !emailEnabled {
        return Object(map["success" := Bool(false), "message" := Str("Email not enabled")]);
      }
      if stats.None? {
        return Object(map["success" := Bool(false), "message" := Str("Error: " + NoAnswer)]);
      }
      var m := Mail("send_weekly_digest", map["to_email" := OptStr(config.userEmail), "episodes" := List(episodes), "stats" := stats.value]);
      mails := mails + [m];
      answer := MailAnswer(w.mailer, m);
    }

    /**
     * The e-mail step after a delivery in the e-mail-capable agent: a summary
     * of the queued episodes, or of all found ones when none was queued and no
     * device is active. The plain agent reports no e-mail outcome.
     */
    method MailAfterDelivery(w: World, sendEmailSummary: bool, added: seq<EpisodeData>, relevant: seq<EpisodeData>)
      returns (sent: Option<bool>)
      requires relevant != []
      modifies this`mails
      ensures var mailing := enhanced && sendEmailSummary && emailEnabled && (added != [] || !ActiveDevice(w.devices));
        var m := SummaryMail(config.userEmail, Encodes(if added != [] then added else relevant));
        (sent.Some? <==> enhanced)
        && (enhanced && !mailing ==> sent == Some(false))
        && (mailing ==> sent == Some(MailSucceeded(MailAnswer(w.mailer, m))))
        && mails == old(mails) + SummaryMails(enhanced && emailEnabled, config.userEmail, w, sendEmailSummary, added, relevant)
    {
      sent := None;
      if enhanced {
        var emailed := false;
        if sendEmailSummary && emailEnabled {
          var active := CheckActiveDevice(w.devices);
          if added != [] || !active {
            var answer := SendEpisodeSummaryEmail(w, Encodes(if added != [] then added else relevant));
            emailed := MailSucceeded(answer);
          }
        }
        sent := Some(emailed);
      }
    }

    /**
     * The second half of `run`: discovery, then delivery of what was found,
     * then the e-mail step. A failed discovery is reported as an error.
     */
    method DiscoverAndDeliver(w: World, sendEmailSummary: bool) returns (rep: Report)
      modifies this`processed, this`mails, store
      ensures Discovers(w, sendEmailSummary, old(processed), processed, rep, old(store.pending), store.pending, old(mails), mails)
      ensures FileAfter(ParkedBy(w, old(processed)) != [], store.persisted, old(store.persisted), store.pending, w.saveOk)
      ensures !emailEnabled ==> mails == old(mails)
    {
      ghost var sv := SurveyOf(w, processed);
      var relevant := CheckForNewEpisodes(w);
      if relevant.Err? {
        return Report("error", "Error: " + relevant.error, None, None);
      }
      var ranked := relevant.value;
      assert ranked == SortDescending(sv.scan.found, Score);
      SortIsPermutation(sv.scan.found, AtLeast(Score));
      if ranked == [] {
        assert |multiset(sv.scan.found)| == 0;
        return Report("success", NothingNew, None, None);
      }
      var added, sent := Deliver(w, sendEmailSummary, ranked);
      rep := Report("success", AddedText(|added|), Some(Encodes(added)), sent);
    }

    /** Delivery of a non-empty batch found by discovery, and the e-mail step after it. */
    method Deliver(w: World, sendEmailSummary: bool, ranked: seq<EpisodeData>) returns (added: seq<EpisodeData>, sent: Option<bool>)
      requires ranked != []
      modifies this`mails, store
      ensures added == Delivered(w, ranked)
      ensures sent.Some? <==> enhanced
      ensures store.pending == old(store.pending) + Stamped(Encodes(SentToPending(w, ranked)), w.now)
      ensures FileAfter(SentToPending(w, ranked) != [], store.persisted, old(store.persisted), store.pending, w.saveOk)
      ensures mails == old(mails) + DeliveryMails(enhanced && emailEnabled, config.userEmail, w, sendEmailSummary, ranked)
    {
      ghost var notice := NoticeMails(enhanced && emailEnabled, config.userEmail, w, ranked);
      ghost var summary := SummaryMails(enhanced && emailEnabled, config.userEmail, w, sendEmailSummary, Delivered(w, ranked), ranked);
      added := AddEpisodesToQueue(w, ranked);
      assert mails == old(mails) + notice;
      sent := MailAfterDelivery(w, sendEmailSummary, added, ranked);
      MailsAppend(old(mails), notice, summary);
    }

    /**
     * The first half of `run`: the pending episodes, and the e-mail step of
     * the e-mail-capable agent when some were redelivered.
     */
    method RedeliverPending(w: World, sendEmailSummary: bool) returns (rep: Report)
      modifies this`mails, store
      ensures var entries := old(store.pending);
        var taken := Redelivered(entries, w.addToQueue);
        (Redelivers(entries, w) <==>
           rep.status == "success" && rep.episodes.Some? && rep.episodes.value != [])
        && (Redelivers(entries, w) ==> rep == Report("success", ProcessedText(|taken|, |entries|), Some(taken), None))
        && store.pending == PendingAfterRedelivery(entries, w)
        && FileAfter(Removes(entries, w) && !RemovalFails(entries, w), store.persisted, old(store.persisted), store.pending, w.saveOk)
        && mails == old(mails) + (if Redelivers(entries, w) && enhanced && sendEmailSummary && emailEnabled
                                  then [SummaryMail(config.userEmail, taken)] else [])
    {
      rep := ProcessPendingEpisodes(w);
      if rep.status == "success" && rep.episodes.Some? && rep.episodes.value != [] {
        if enhanced && sendEmailSummary && emailEnabled {
          var _ := SendEpisodeSummaryEmail(w, rep.episodes.value);
        }
      }
    }

    /**
     * `run`: with no preferences an error before anything else; then the
     * pending episodes, returning at once (after the e-mail step of the
     * e-mail-capable agent) when some were redelivered; then discovery and
     * delivery.
     */
    method Run(w: World, sendEmailSummary: bool) returns (rep: Report)
      modifies this`processed, this`mails, store
      ensures old(config.preferences) == [] ==>
                rep == Report("error", NoPreferences, None, None)
                && processed == old(processed) && store.pending == old(store.pending)
                && store.persisted == old(store.persisted) && mails == old(mails)
      ensures rep.status == "success" || rep.status == "error"
      ensures var entries := old(store.pending);
        var taken := Redelivered(entries, w.addToQueue);
        var kept := PendingAfterRedelivery(entries, w);
        var removed := Removes(entries, w) && !RemovalFails(entries, w);
        var shortcut := old(config.preferences) != [] && Redelivers(entries, w);
        (shortcut ==> rep == Report("success", ProcessedText(|taken|, |entries|), Some(taken), None)
                      && processed == old(processed)
                      && store.pending == kept
                      && FileAfter(removed, store.persisted, old(store.persisted), kept, w.saveOk)
                      && mails == old(mails) + (if enhanced && sendEmailSummary && emailEnabled then [SummaryMail(config.userEmail, taken)] else []))
        && (old(config.preferences) != [] && !shortcut ==>
              Discovers(w, sendEmailSummary, old(processed), processed, rep, kept, store.pending, old(mails), mails)
              && FileAfter(removed || ParkedBy(w, old(processed)) != [], store.persisted, old(store.persisted), store.pending, w.saveOk))
      ensures !emailEnabled ==> mails == old(mails)
    {
      if config.preferences == [] {
        return Report("error", NoPreferences, None, None);
      }
      ghost var entries := store.pending;
      ghost var f0 := store.persisted;
      var pendingResult := RedeliverPending(w, sendEmailSummary);
      if pendingResult.status == "success" && pendingResult.episodes.Some? && pendingResult.episodes.value != [] {
        return pendingResult;
      }
      ghost var kept := store.pending;
      ghost var f1 := store.persisted;
      assert mails == old(mails);
      rep := DiscoverAndDeliver(w, sendEmailSummary);
      FileAfterCompose(Removes(entries, w) && !RemovalFails(entries, w), ParkedBy(w, old(processed)) != [], f0, f1, store.persisted,
                       kept, store.pending, w.saveOk);
    }
  }

  /** Two e-mail steps in a row append their requests in order. */
  lemma MailsAppend(log: seq<Mail>, first: seq<Mail>, second: seq<Mail>)
    ensures log + first + second == log + (first + second)
  {
  }

  /** Re-queuing one more episode appends its stamped record. */
  lemma RequeueStep(log: seq<Value>, before: seq<EpisodeData>, d: EpisodeData, now: string)
    ensures [Encode(d)][..1] == [Encode(d)]
    ensures log + Stamped(Encodes(before + [d]), now) == log + Stamped(Encodes(before), now) + Stamped([Encode(d)], now)
  {
    assert Encodes(before + [d]) == Encodes(before) + [Encode(d)];
    assert Stamped(Encodes(before + [d]), now) == Stamped(Encodes(before), now) + Stamped([Encode(d)], now);
  }

  /** A failure in the topic fan-out keeps the pass failed whatever shows follow. */
  lemma {:induction false} TopicFailureSticks(catalog: Catalog, shows: seq<Show>, k: nat)
    requires k <= |shows|
    requires TopicEpisodes(catalog, shows[..k]).Err?
    ensures TopicEpisodes(catalog, shows) == TopicEpisodes(catalog, shows[..k])
    decreases |shows|
  {
    if k < |shows| {
      var init := shows[..|shows| - 1];
      assert init[..k] == shows[..k];
      TopicFailureSticks(catalog, init, k);
    } else {
      assert shows[..k] == shows;
    }
  }
}
