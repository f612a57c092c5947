/**
 * The e-mail tool server: summary, notification and weekly-digest mails and
 * two read-only resources, served through the dispatch protocol. SMTP and the
 * HTML bodies are oracles; what is modelled is the routing, the guards that
 * decide whether a mail is attempted, the answers and the duration text.
 */
module EmailServer {
  import opened Wrappers
  import opened Json
  import opened Text
  import opened Protocol

  /**
   * The server's configuration and the world beneath it. `deliver` is the
   * SMTP exchange for a recipient and subject (false where it raises);
   * `summaryHtml` and `digestHtml` are the HTML builders (None where they
   * raise on the episodes given); `digestSubject` is the dated subject line.
   */
  datatype EmailServer = EmailServer(
    smtpUsername: Option<string>,
    smtpPassword: Option<string>,
    deliver: (Value, Value) -> bool,
    summaryHtml: (Value, Value) -> Option<string>,
    digestHtml: (Value, Value) -> Option<string>,
    digestSubject: string)

  function Tools(): seq<Tool> {
    [ Tool("send_summary_email", "Send episode summary email to user",
           Schema(map["to_email" := Property("string", "Recipient email"),
                      "episodes" := Property("array", "Episodes to summarize"),
                      "subject" := Object(map["type" := Str("string"), "description" := Str("Email subject"),
                                              "default" := Str("Your Daily Podcast Summary")]),
                      "template" := Object(map["type" := Str("string"), "description" := Str("Email template"),
                                               "default" := Str("default")])],
                  ["to_email", "episodes"])),
      Tool("send_notification", "Send a simple notification email",
           Schema(map["to_email" := Property("string", "Recipient email"),
                      "subject" := Property("string", "Email subject"),
                      "message" := Property("string", "Email message")],
                  ["to_email", "subject", "message"])),
      Tool("send_weekly_digest", "Send weekly podcast digest",
           Schema(map["to_email" := Property("string", "Recipient email"),
                      "episodes" := Property("array", "Week's episodes"),
                      "stats" := Property("object", "Weekly stats")],
                  ["to_email", "episodes"])) ]
  }

  function Resources(): seq<Resource> {
    [ Resource("email://templates", "Email Templates", Some("Available email templates"), Some("application/json")),
      Resource("email://history", "Email History", Some("Recent email sending history"), Some("application/json")) ]
  }

  /** SMTP login is attempted only with a non-empty user name and password. */
  predicate HasCredentials(server: EmailServer) {
    server.smtpUsername.Some? && |server.smtpUsername.value| > 0
    && server.smtpPassword.Some? && |server.smtpPassword.value| > 0
  }

  /** `_send_email`: false without credentials, otherwise the SMTP outcome. */
  function SendEmail(server: EmailServer, to: Value, subject: Value): (sent: bool)
    ensures sent <==> HasCredentials(server) && server.deliver(to, subject)
  {
    if !HasCredentials(server) then false else server.deliver(to, subject)
  }

  /** Python's `len` on the values it accepts. */
  function Length(v: Value): Option<int> {
    match v
    case List(items) => Some(|items|)
    case Str(s) => Some(|s|)
    case Object(fields) => Some(|fields|)
    case _ => None
  }

  function Outcome(success: bool, text: string): Value {
    Object(map["success" := Bool(success), "message" := Str(text)])
  }

  function Counted(success: bool, text: string, count: int): Value {
    Object(map["success" := Bool(success), "message" := Str(text), "episodes_count" := Int(count)])
  }

  const NoEpisodes: string := "No episodes to summarize"

  /** `_send_summary_email`; a raising step is caught and reported as `Error: ...`. */
  function SendSummary(server: EmailServer, to: Value, episodes: Value, subject: Value, template: Value): Value {
    if !Truthy(episodes) then Outcome(false, NoEpisodes)
    else if server.summaryHtml(episodes, template).None? then Outcome(false, "Error: summary could not be built")
    else
      var sent := SendEmail(server, to, subject);
      match Length(episodes)
      case None => Outcome(false, "Error: object has no len()")
      case Some(n) =>
        Counted(sent, if sent then "Summary email sent to " + ValueText(Some(to)) else "Failed to send email", n)
  }

  /** `_send_notification`. */
  function SendNotification(server: EmailServer, to: Value, subject: Value): Value {
    var sent := SendEmail(server, to, subject);
    Outcome(sent, if sent then "Notification sent to " + ValueText(Some(to)) else "Failed to send notification")
  }

  /** `_send_weekly_digest`; unlike the summary it has no empty-list guard. */
  function SendDigest(server: EmailServer, to: Value, episodes: Value, stats: Value): Value {
    if server.digestHtml(episodes, stats).None? then Outcome(false, "Error: digest could not be built")
    else
      var sent := SendEmail(server, to, Str(server.digestSubject));
      match Length(episodes)
      case None => Outcome(false, "Error: object has no len()")
      case Some(n) =>
        Counted(sent, if sent then "Weekly digest sent to " + ValueText(Some(to)) else "Failed to send digest", n)
  }

  /** `_execute_tool`: a missing required argument raises a key error. */
  function Execute(server: EmailServer, name: Option<Value>, arguments: Value): Result<Value, string> {
    if name == Some(Str("send_summary_email")) then
      match (Get(arguments, "to_email"), Get(arguments, "episodes"))
      case (None, _) => Err("'to_email'")
      case (_, None) => Err("'episodes'")
      case (Some(to), Some(episodes)) =>
        Ok(SendSummary(server, to, episodes,
                       GetOr(arguments, "subject", Str("Your Daily Podcast Summary")).value,
                       GetOr(arguments, "template", Str("default")).value))
    else if name == Some(Str("send_notification")) then
      match (Get(arguments, "to_email"), Get(arguments, "subject"), Get(arguments, "message"))
      case (None, _, _) => Err("'to_email'")
      case (_, None, _) => Err("'subject'")
      case (_, _, None) => Err("'message'")
      case (Some(to), Some(subject), Some(_)) => Ok(SendNotification(server, to, subject))
    else if name == Some(Str("send_weekly_digest")) then
      match (Get(arguments, "to_email"), Get(arguments, "episodes"))
      case (None, _) => Err("'to_email'")
      case (_, None) => Err("'episodes'")
      case (Some(to), Some(episodes)) =>
        Ok(SendDigest(server, to, episodes, GetOr(arguments, "stats", Object(map[])).value))
    else Err("Unknown tool: " + ValueText(name))
  }

  /** `_read_resource`: two fixed answers; any other URI raises. */
  function Read(uri: Option<Value>): Result<Value, string> {
    if uri == Some(Str("email://templates")) then
      Ok(Object(map["templates" := List([Str("default"), Str("minimal"), Str("detailed")]),
                    "description" := Str("Available email templates")]))
    else if uri == Some(Str("email://history")) then
      Ok(Object(map["recent_emails" := List([]),
                    "description" := Str("Email sending history (not implemented)")]))
    else Err("Unknown resource URI: " + ValueText(uri))
  }

  function HandleRequest(server: EmailServer, m: Message): Message {
    Serve(m, Tools(), Some(Resources()), (n, a) => Execute(server, n, a), Read)
  }

  /**
   * `_format_duration`: "Unknown" for a missing or zero duration, otherwise
   * whole minutes (rounded down), as "<m>m" under an hour and "<h>h <m>m" from
   * an hour on.
   */
  function FormatDuration(durationMs: Option<int>): (text: string)
    ensures text == "Unknown" <==> durationMs.None? || durationMs == Some(0)
  {
    if durationMs.None? || durationMs == Some(0) then "Unknown"
    else
      var minutes := durationMs.value / 60000;
      var text := if minutes < 60 then IntToString(minutes) + "m"
                  else NatToString(minutes / 60) + "h " + NatToString(minutes % 60) + "m";
      assert text[|text| - 1] == 'm' && "Unknown"[6] == 'n';
      text
  }

  /** A known duration's text reads back as its whole number of minutes. */
  lemma FormatDurationReadsBack(ms: int)
    requires ms != 0
    ensures ParseDurationText(FormatDuration(Some(ms))) == Some(ms / 60000)
  {
    var minutes := ms / 60000;
    if minutes < 60 {
      ParseMinutesText(minutes);
    } else {
      ParseHoursMinutesText(minutes / 60, minutes % 60);
    }
  }

  /** From an hour on the minutes are always written, even when they are zero. */
  lemma WholeHourKeepsMinutes()
    ensures FormatDuration(Some(3600000)) == "1h 0m"
    ensures FormatDuration(Some(59999)) == "0m"
  {
    assert NatToString(1) == "1" && NatToString(0) == "0" && IntToString(0) == "0";
  }

  /** An empty or falsy episode list answers without building or sending anything. */
  lemma EmptySummarySendsNothing(server: EmailServer, other: EmailServer, to: Value, episodes: Value, subject: Value, template: Value)
    requires !Truthy(episodes)
    ensures SendSummary(server, to, episodes, subject, template) == Outcome(false, NoEpisodes)
    ensures SendSummary(server, to, episodes, subject, template) == SendSummary(other, to, episodes, subject, template)
  {
  }

  /**
   * Without credentials no tool reports success, whatever the SMTP side
   * would have done; with them, success means the mail went out.
   */
  lemma SuccessNeedsCredentials(server: EmailServer, name: Option<Value>, arguments: Value)
    ensures match Execute(server, name, arguments)
      case Ok(v) => Get(v, "success").Some? && (Get(v, "success") == Some(Bool(true)) ==> HasCredentials(server))
      case Err(_) => true
  {
    var to, episodes := Get(arguments, "to_email"), Get(arguments, "episodes");
    if name == Some(Str("send_summary_email")) && to.Some? && episodes.Some? {
      SummaryCarriesSuccess(server, to.value, episodes.value,
                            GetOr(arguments, "subject", Str("Your Daily Podcast Summary")).value,
                            GetOr(arguments, "template", Str("default")).value);
    } else if name == Some(Str("send_notification")) && to.Some? && Get(arguments, "subject").Some? {
      NotificationCarriesSuccess(server, to.value, Get(arguments, "subject").value);
    } else if name == Some(Str("send_weekly_digest")) && to.Some? && episodes.Some? {
      DigestCarriesSuccess(server, to.value, episodes.value, GetOr(arguments, "stats", Object(map[])).value);
    }
  }

  /** A summary answer carries `success`, true only with credentials. */
  lemma SummaryCarriesSuccess(server: EmailServer, to: Value, episodes: Value, subject: Value, template: Value)
    ensures var v := SendSummary(server, to, episodes, subject, template);
      Get(v, "success").Some? && (Get(v, "success") == Some(Bool(true)) ==> HasCredentials(server))
  {
  }

  /** A notification answer carries `success`, true only with credentials. */
  lemma NotificationCarriesSuccess(server: EmailServer, to: Value, subject: Value)
    ensures var v := SendNotification(server, to, subject);
      Get(v, "success").Some? && (Get(v, "success") == Some(Bool(true)) ==> HasCredentials(server))
  {
  }

  /** A digest answer carries `success`, true only with credentials. */
  lemma DigestCarriesSuccess(server: EmailServer, to: Value, episodes: Value, stats: Value)
    ensures var v := SendDigest(server, to, episodes, stats);
      Get(v, "success").Some? && (Get(v, "success") == Some(Bool(true)) ==> HasCredentials(server))
  {
  }

  /** The executor refuses as unknown exactly the names that are not registered. */
  lemma ExecutorMatchesRegistry(server: EmailServer, name: string, arguments: Value)
    ensures ToolNames(Tools()) == ["send_summary_email", "send_notification", "send_weekly_digest"]
    ensures Execute(server, Some(Str(name)), arguments) == Err("Unknown tool: " + name)
            <==> name !in ToolNames(Tools())
  {
    assert ToolNames(Tools()) == ["send_summary_email", "send_notification", "send_weekly_digest"];
    var unknown := "Unknown tool: " + name;
    assert unknown[0] == 'U';
    var r := Execute(server, Some(Str(name)), arguments);
    if name in ToolNames(Tools()) {
      assert r.Err? ==> |r.error| > 0 && r.error[0] != 'U';
    }
  }

  /** Reading the templates resource through the protocol lists the three templates. */
  lemma TemplatesThroughProtocol(server: EmailServer)
    ensures Unwrap(HandleRequest(server, Envelope("resources/read", Some(map["uri" := Str("email://templates")]))))
            == Ok(Object(map["contents" := Object(map["templates" := List([Str("default"), Str("minimal"), Str("detailed")]),
                                                         "description" := Str("Available email templates")])]))
  {
  }
}
