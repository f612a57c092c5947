/**
 * The validating endpoints of the HTTP APIs: a configuration update is
 * checked in full before any field is written, an e-mail address switches
 * e-mail on, and a preference needs something to search by.
 */
module Api {
  import opened Wrappers
  import opened Config
  import opened McpAgent

  /** The body of a configuration update; an absent field is not written. `userEmail` exists only in the e-mail-capable API. */
  datatype ConfigUpdate = ConfigUpdate(
    checkFrequency: Option<string>,
    relevanceThreshold: Option<real>,
    maxEpisodesPerRun: Option<int>,
    useVectorMemory: Option<bool>,
    userEmail: Option<string>)

  /** One supplied field of an update, as the update dictionary without its None values holds it. */
  datatype Field =
    | Frequency(frequency: string)
    | Threshold(threshold: real)
    | Cap(cap: int)
    | VectorMemory(on: bool)
    | Email(address: string)

  /** An HTTP error answer. */
  datatype Refusal = Refusal(status: int, detail: string)

  const ThresholdDetail := "Relevance threshold must be between 0.0 and 1.0"
  const CapDetail := "Max episodes per run must be between 1 and 20"
  const FrequencyDetail := "Check frequency must be 'daily' or 'weekly'"
  const SelectorDetail := "At least one of show_name, show_id, or topics must be provided"

  /** The update dictionary's entries, in the order the fields are declared. */
  function Fields(u: ConfigUpdate): seq<Field> {
    FrequencyField(u) + ThresholdField(u) + CapField(u) + VectorMemoryField(u) + EmailField(u)
  }

  function FrequencyField(u: ConfigUpdate): seq<Field> {
    if u.checkFrequency.Some? then [Frequency(u.checkFrequency.value)] else []
  }

  function ThresholdField(u: ConfigUpdate): seq<Field> {
    if u.relevanceThreshold.Some? then [Threshold(u.relevanceThreshold.value)] else []
  }

  function CapField(u: ConfigUpdate): seq<Field> {
    if u.maxEpisodesPerRun.Some? then [Cap(u.maxEpisodesPerRun.value)] else []
  }

  function VectorMemoryField(u: ConfigUpdate): seq<Field> {
    if u.useVectorMemory.Some? then [VectorMemory(u.useVectorMemory.value)] else []
  }

  function EmailField(u: ConfigUpdate): seq<Field> {
    if u.userEmail.Some? then [Email(u.userEmail.value)] else []
  }

  function FieldName(f: Field): string {
    match f
    case Frequency(_) => "check_frequency"
    case Threshold(_) => "relevance_threshold"
    case Cap(_) => "max_episodes_per_run"
    case VectorMemory(_) => "use_vector_memory"
    case Email(_) => "user_email"
  }

  /** `updated_fields`: the keys of the update dictionary. */
  function FieldNames(fs: seq<Field>): seq<string>
    decreases |fs|
  {
    if fs == [] then [] else [FieldName(fs[0])] + FieldNames(fs[1..])
  }

  /** Settings within the bounds the update endpoints enforce. */
  predicate AcceptableUpdate(u: ConfigUpdate) {
    (u.relevanceThreshold.Some? ==> 0.0 <= u.relevanceThreshold.value <= 1.0)
    && (u.maxEpisodesPerRun.Some? ==> 1 <= u.maxEpisodesPerRun.value <= 20)
    && (u.checkFrequency.Some? ==> u.checkFrequency.value in ["daily", "weekly"])
  }

  /** The bounds checks of `update_config`, in their order: the first one that fails answers 400. */
  function UpdateRefusal(u: ConfigUpdate): (r: Option<Refusal>)
    ensures r.None? <==> AcceptableUpdate(u)
    ensures r.Some? ==> r.value.status == 400
    ensures r == Some(Refusal(400, CapDetail)) ==> u.relevanceThreshold.None? || 0.0 <= u.relevanceThreshold.value <= 1.0
    ensures r == Some(Refusal(400, FrequencyDetail)) ==>
              (u.relevanceThreshold.None? || 0.0 <= u.relevanceThreshold.value <= 1.0)
              && (u.maxEpisodesPerRun.None? || 1 <= u.maxEpisodesPerRun.value <= 20)
  {
    if u.relevanceThreshold.Some? && !(0.0 <= u.relevanceThreshold.value <= 1.0) then Some(Refusal(400, ThresholdDetail))
    else if u.maxEpisodesPerRun.Some? && (u.maxEpisodesPerRun.value < 1 || u.maxEpisodesPerRun.value > 20) then Some(Refusal(400, CapDetail))
    else if u.checkFrequency.Some? && u.checkFrequency.value !in ["daily", "weekly"] then Some(Refusal(400, FrequencyDetail))
    else None
  }

  /** One `setattr`; the e-mail field writes the address. */
  function ApplyField(c: AgentConfig, f: Field): AgentConfig {
    match f
    case Frequency(s) => c.(checkFrequency := s)
    case Threshold(t) => c.(relevanceThreshold := t)
    case Cap(n) => c.(maxEpisodesPerRun := n)
    case VectorMemory(b) => c.(useVectorMemory := b)
    case Email(e) => c.(userEmail := Some(e))
  }

  function ApplyFields(c: AgentConfig, fs: seq<Field>): AgentConfig
    decreases |fs|
  {
    if fs == [] then c else ApplyField(ApplyFields(c, fs[..|fs| - 1]), fs[|fs| - 1])
  }

  /** The configuration after an update, field by field: a supplied value replaces the old one, the rest stays. */
  function Updated(c: AgentConfig, u: ConfigUpdate): AgentConfig {
    AgentConfig(
      if u.checkFrequency.Some? then u.checkFrequency.value else c.checkFrequency,
      if u.relevanceThreshold.Some? then u.relevanceThreshold.value else c.relevanceThreshold,
      if u.maxEpisodesPerRun.Some? then u.maxEpisodesPerRun.value else c.maxEpisodesPerRun,
      if u.useVectorMemory.Some? then u.useVectorMemory.value else c.useVectorMemory,
      c.preferences,
      if u.userEmail.Some? then u.userEmail else c.userEmail)
  }

  lemma {:induction false} ApplyFieldsAppend(c: AgentConfig, a: seq<Field>, b: seq<Field>)
    ensures ApplyFields(c, a + b) == ApplyFields(ApplyFields(c, a), b)
    decreases |b|
  {
    if b == [] {
      assert a + b == a;
    } else {
      var ab := a + b;
      assert ab[..|ab| - 1] == a + b[..|b| - 1];
      ApplyFieldsAppend(c, a, b[..|b| - 1]);
    }
  }

  lemma ApplyFive(c: AgentConfig, f1: seq<Field>, f2: seq<Field>, f3: seq<Field>, f4: seq<Field>, f5: seq<Field>)
    ensures ApplyFields(c, f1 + f2 + f3 + f4 + f5)
            == ApplyFields(ApplyFields(ApplyFields(ApplyFields(ApplyFields(c, f1), f2), f3), f4), f5)
  {
    ApplyFieldsAppend(c, f1 + f2 + f3 + f4, f5);
    ApplyFieldsAppend(c, f1 + f2 + f3, f4);
    ApplyFieldsAppend(c, f1 + f2, f3);
    ApplyFieldsAppend(c, f1, f2);
  }

  /** At most one field applied: nothing, or that field. */
  lemma ApplyAtMostOne(c: AgentConfig, fs: seq<Field>)
    requires |fs| <= 1
    ensures ApplyFields(c, fs) == if fs == [] then c else ApplyField(c, fs[0])
  {
    if fs != [] {
      assert fs[..0] == [];
    }
  }

  lemma ApplyEach(c: AgentConfig, u: ConfigUpdate)
    ensures ApplyFields(c, FrequencyField(u)) == c.(checkFrequency := Updated(c, u).checkFrequency)
    ensures ApplyFields(c, ThresholdField(u)) == c.(relevanceThreshold := Updated(c, u).relevanceThreshold)
    ensures ApplyFields(c, CapField(u)) == c.(maxEpisodesPerRun := Updated(c, u).maxEpisodesPerRun)
    ensures ApplyFields(c, VectorMemoryField(u)) == c.(useVectorMemory := Updated(c, u).useVectorMemory)
    ensures ApplyFields(c, EmailField(u)) == c.(userEmail := Updated(c, u).userEmail)
  {
    ApplyAtMostOne(c, FrequencyField(u));
    ApplyAtMostOne(c, ThresholdField(u));
    ApplyAtMostOne(c, CapField(u));
    ApplyAtMostOne(c, VectorMemoryField(u));
    ApplyAtMostOne(c, EmailField(u));
  }

  /** Writing the supplied fields one by one gives the field-by-field update. */
  lemma ApplyFieldsMeaning(c: AgentConfig, u: ConfigUpdate)
    ensures ApplyFields(c, Fields(u)) == Updated(c, u)
  {
    ApplyFive(c, FrequencyField(u), ThresholdField(u), CapField(u), VectorMemoryField(u), EmailField(u));
    var c1 := ApplyFields(c, FrequencyField(u));
    var c2 := ApplyFields(c1, ThresholdField(u));
    var c3 := ApplyFields(c2, CapField(u));
    var c4 := ApplyFields(c3, VectorMemoryField(u));
    ApplyEach(c, u);
    ApplyEach(c1, u);
    ApplyEach(c2, u);
    ApplyEach(c3, u);
    ApplyEach(c4, u);
  }

  /** The settings the update endpoints keep within bounds. */
  predicate WithinBounds(c: AgentConfig) {
    0.0 <= c.relevanceThreshold <= 1.0 && 1 <= c.maxEpisodesPerRun <= 20 && c.checkFrequency in ["daily", "weekly"]
  }

  /** An accepted update keeps the settings within bounds and never touches the preferences. */
  lemma AcceptedUpdateKeepsBounds(c: AgentConfig, u: ConfigUpdate)
    requires WithinBounds(c) && UpdateRefusal(u).None?
    ensures WithinBounds(Updated(c, u))
    ensures Updated(c, u).preferences == c.preferences
  {
  }

  /** The declared defaults are within bounds. */
  lemma DefaultsWithinBounds()
    ensures WithinBounds(DefaultConfig)
  {
  }

  /** The keys reported back name exactly the supplied fields. */
  lemma {:induction false} FieldNamesMeaning(fs: seq<Field>)
    ensures |FieldNames(fs)| == |fs|
    ensures forall k :: 0 <= k < |fs| ==> FieldNames(fs)[k] == FieldName(fs[k])
    decreases |fs|
  {
    if fs != [] {
      FieldNamesMeaning(fs[1..]);
    }
  }

  /** Whether the supplied fields carry an e-mail address. */
  function EmailIn(fs: seq<Field>): bool
    decreases |fs|
  {
    fs != [] && (fs[|fs| - 1].Email? || EmailIn(fs[..|fs| - 1]))
  }

  lemma {:induction false} EmailInAppend(a: seq<Field>, b: seq<Field>)
    ensures EmailIn(a + b) == (EmailIn(a) || EmailIn(b))
    decreases |b|
  {
    if b == [] {
      assert a + b == a;
    } else {
      var ab := a + b;
      assert ab[..|ab| - 1] == a + b[..|b| - 1] && ab[|ab| - 1] == b[|b| - 1];
      EmailInAppend(a, b[..|b| - 1]);
    }
  }

  lemma EmailInSingle(f: Field)
    ensures EmailIn([f]) == f.Email?
  {
    assert [f][..0] == [];
  }

  /** The fields carry an address exactly when the update supplies one. */
  lemma EmailInMeaning(u: ConfigUpdate)
    ensures EmailIn(Fields(u)) <==> u.userEmail.Some?
  {
    var f1, f2, f3, f4, f5 := FrequencyField(u), ThresholdField(u), CapField(u), VectorMemoryField(u), EmailField(u);
    EmailInAppend(f1 + f2 + f3 + f4, f5);
    EmailInAppend(f1 + f2 + f3, f4);
    EmailInAppend(f1 + f2, f3);
    EmailInAppend(f1, f2);
    if f1 != [] { EmailInSingle(f1[0]); assert f1 == [f1[0]]; }
    if f2 != [] { EmailInSingle(f2[0]); assert f2 == [f2[0]]; }
    if f3 != [] { EmailInSingle(f3[0]); assert f3 == [f3[0]]; }
    if f4 != [] { EmailInSingle(f4[0]); assert f4 == [f4[0]]; }
    if f5 != [] { EmailInSingle(f5[0]); assert f5 == [f5[0]]; }
  }

  /**
   * What the apply loop leaves: the configuration, the e-mail flag, and the
   * error that stopped it, if one did.
   */
  datatype Applied = Applied(config: AgentConfig, emailOn: bool, failure: Option<string>)

  /**
   * The apply loop of `update_config` on a configuration declaring
   * `declared`: field by field in order; the address is written through
   * `WriteUserEmail` before e-mail is turned on, so an undeclared field
   * stops the loop there, keeping the fields written before it.
   */
  function ApplyChecked(declared: set<string>, c: AgentConfig, on: bool, fs: seq<Field>): Applied
    decreases |fs|
  {
    if fs == [] then Applied(c, on, None)
    else
      var a := ApplyChecked(declared, c, on, fs[..|fs| - 1]);
      var f := fs[|fs| - 1];
      if a.failure.Some? then a
      else if f.Email? then
        var w := WriteUserEmail(declared, a.config, f.address);
        if w.Err? then Applied(a.config, a.emailOn, Some(w.error)) else Applied(w.value, true, None)
      else Applied(ApplyField(a.config, f), a.emailOn, None)
  }

  /**
   * When the address can be written, or none is supplied, the loop runs to
   * the end: every field applied, e-mail on exactly when it was or an
   * address came.
   */
  lemma {:induction false} ApplyCheckedCompletes(declared: set<string>, c: AgentConfig, on: bool, fs: seq<Field>)
    requires "user_email" in declared || !EmailIn(fs)
    ensures ApplyChecked(declared, c, on, fs) == Applied(ApplyFields(c, fs), on || EmailIn(fs), None)
    decreases |fs|
  {
    if fs != [] {
      ApplyCheckedCompletes(declared, c, on, fs[..|fs| - 1]);
    }
  }

  /**
   * As written: an accepted update carrying an address writes the other
   * supplied fields, then fails on the undeclared `user_email` with e-mail
   * left as it was.
   */
  lemma ApplyCheckedAsWritten(c: AgentConfig, on: bool, u: ConfigUpdate)
    requires u.userEmail.Some?
    ensures ApplyChecked(DeclaredFields, c, on, Fields(u))
            == Applied(Updated(c, u.(userEmail := None)), on, Some(NoField("user_email")))
  {
    var v := u.(userEmail := None);
    UserEmailUndeclared();
    assert Fields(u) == Fields(v) + [Email(u.userEmail.value)];
    assert Fields(u)[..|Fields(u)| - 1] == Fields(v);
    EmailInMeaning(v);
    ApplyCheckedCompletes(DeclaredFields, c, on, Fields(v));
    ApplyFieldsMeaning(c, v);
  }

  /**
   * With `user_email` declared, the loop applies the whole update: the
   * field-by-field update, and e-mail on when an address is supplied.
   */
  lemma ApplyCheckedCorrected(declared: set<string>, c: AgentConfig, on: bool, u: ConfigUpdate)
    requires "user_email" in declared
    ensures ApplyChecked(declared, c, on, Fields(u))
            == Applied(Updated(c, u), on || u.userEmail.Some?, None)
  {
    ApplyCheckedCompletes(declared, c, on, Fields(u));
    ApplyFieldsMeaning(c, u);
    EmailInMeaning(u);
  }

  /**
   * `update_config` on a configuration declaring `declared`: every bound is
   * checked before anything is written, so a refused update changes nothing.
   * An accepted one runs the apply loop; when it stops on an error the
   * answer is 500 with the error's text and the fields written before it
   * stay. With `user_email` declared it writes exactly the supplied fields
   * and an address turns e-mail on; as declared, an address gives that 500
   * after the other fields are written. The base API's endpoint is this one
   * on updates without an address.
   */
  method UpdateConfig(agent: PodcastAgent, declared: set<string>, u: ConfigUpdate) returns (r: Result<seq<string>, Refusal>)
    modifies agent`config, agent`emailEnabled
    ensures UpdateRefusal(u).Some? ==>
              r == Err(UpdateRefusal(u).value)
              && agent.config == old(agent.config) && agent.emailEnabled == old(agent.emailEnabled)
    ensures UpdateRefusal(u).None? ==>
              var a := ApplyChecked(declared, old(agent.config), old(agent.emailEnabled), Fields(u));
              agent.config == a.config && agent.emailEnabled == a.emailOn
              && r == (if a.failure.Some? then Err(Refusal(500, a.failure.value)) else Ok(FieldNames(Fields(u))))
    ensures UpdateRefusal(u).None? && "user_email" in declared ==>
              r == Ok(FieldNames(Fields(u)))
              && agent.config == Updated(old(agent.config), u)
              && agent.emailEnabled == (old(agent.emailEnabled) || u.userEmail.Some?)
    ensures UpdateRefusal(u).None? && declared == DeclaredFields && u.userEmail.Some? ==>
              r == Err(Refusal(500, NoField("user_email")))
              && agent.config == Updated(old(agent.config), u.(userEmail := None))
              && agent.emailEnabled == old(agent.emailEnabled)
  {
    var refusal := UpdateRefusal(u);
    if refusal.Some? {
      return Err(refusal.value);
    }
    var failure := ApplyAll(agent, declared, Fields(u));
    if failure.Some? {
      r := Err(Refusal(500, failure.value));
    } else {
      r := Ok(FieldNames(Fields(u)));
    }
    if "user_email" in declared {
      ApplyCheckedCorrected(declared, old(agent.config), old(agent.emailEnabled), u);
    }
    if declared == DeclaredFields && u.userEmail.Some? {
      ApplyCheckedAsWritten(old(agent.config), old(agent.emailEnabled), u);
    }
  }

  /** The apply loop of `update_config` over the supplied fields, stopping at the first error. */
  method ApplyAll(agent: PodcastAgent, declared: set<string>, fs: seq<Field>) returns (failure: Option<string>)
    modifies agent`config, agent`emailEnabled
    ensures Applied(agent.config, agent.emailEnabled, failure)
            == ApplyChecked(declared, old(agent.config), old(agent.emailEnabled), fs)
  {
    var i := 0;
    failure := None;
    while i < |fs|
      invariant 0 <= i <= |fs| && failure.None?
      invariant Applied(agent.config, agent.emailEnabled, None)
                == ApplyChecked(declared, old(agent.config), old(agent.emailEnabled), fs[..i])
    {
      assert fs[..i + 1][..i] == fs[..i] && fs[..i + 1][i] == fs[i];
      failure := ApplyOne(agent, declared, fs[i]);
      if failure.Some? {
        assert Applied(agent.config, agent.emailEnabled, failure)
               == ApplyChecked(declared, old(agent.config), old(agent.emailEnabled), fs[..i + 1]);
        ApplyCheckedStopped(declared, old(agent.config), old(agent.emailEnabled), fs, i + 1);
        return;
      }
      i := i + 1;
    }
    assert fs[..i] == fs;
  }

  /** Once the loop has failed, later fields change nothing. */
  lemma {:induction false} ApplyCheckedStopped(declared: set<string>, c: AgentConfig, on: bool, fs: seq<Field>, k: nat)
    requires k <= |fs|
    requires ApplyChecked(declared, c, on, fs[..k]).failure.Some?
    ensures ApplyChecked(declared, c, on, fs) == ApplyChecked(declared, c, on, fs[..k])
    decreases |fs| - k
  {
    if k < |fs| {
      assert fs[..k + 1][..k] == fs[..k];
      ApplyCheckedStopped(declared, c, on, fs, k + 1);
    } else {
      assert fs[..k] == fs;
    }
  }

  /** One step of the apply loop: `setattr`, or for the address the checked write and then e-mail on. */
  method ApplyOne(agent: PodcastAgent, declared: set<string>, f: Field) returns (failure: Option<string>)
    modifies agent`config, agent`emailEnabled
    ensures !f.Email? ==> failure.None? && agent.config == ApplyField(old(agent.config), f)
                          && agent.emailEnabled == old(agent.emailEnabled)
    ensures f.Email? ==>
              var w := WriteUserEmail(declared, old(agent.config), f.address);
              if w.Err? then failure == Some(w.error) && agent.config == old(agent.config)
                             && agent.emailEnabled == old(agent.emailEnabled)
              else failure.None? && agent.config == w.value && agent.emailEnabled
  {
    failure := None;
    if f.Email? {
      var w := WriteUserEmail(declared, agent.config, f.address);
      if w.Err? {
        return Some(w.error);
      }
      agent.config := w.value;
      agent.emailEnabled := true;
    } else {
      agent.config := ApplyField(agent.config, f);
    }
  }

  /**
   * `update_email_settings` on a configuration declaring `declared`: the
   * address is stored and e-mail turned on, or, when the field is not
   * declared, the write fails, nothing changes, and the answer is 500 with
   * the error's text (the case as written).
   */
  method UpdateEmailSettings(agent: PodcastAgent, declared: set<string>, address: string) returns (r: Result<string, Refusal>)
    modifies agent`config, agent`emailEnabled
    ensures "user_email" in declared ==>
              agent.config == old(agent.config).(userEmail := Some(address)) && agent.emailEnabled
              && r == Ok("Email settings updated successfully")
    ensures "user_email" !in declared ==>
              agent.config == old(agent.config) && agent.emailEnabled == old(agent.emailEnabled)
              && r == Err(Refusal(500, NoField("user_email")))
  {
    var w := WriteUserEmail(declared, agent.config, address);
    if w.Err? {
      return Err(Refusal(500, w.error));
    }
    agent.config := w.value;
    agent.emailEnabled := true;
    r := Ok("Email settings updated successfully");
  }

  /** As written, `update_email_settings` always answers 500: the field is undeclared. */
  lemma EmailSettingsAsWritten(c: AgentConfig, address: string)
    ensures WriteUserEmail(DeclaredFields, c, address) == Err(NoField("user_email"))
  {
    UserEmailUndeclared();
  }

  /** `add_preference`: refused with 400 unless some selector is truthy; otherwise exactly one preference is appended. */
  method AddPreference(agent: PodcastAgent, p: Preference) returns (r: Result<Preference, Refusal>)
    modifies agent`config
    ensures !HasSelector(p) ==> r == Err(Refusal(400, SelectorDetail)) && agent.config == old(agent.config)
    ensures HasSelector(p) ==>
              r == Ok(p) && agent.config == old(agent.config).(preferences := old(agent.config).preferences + [p])
  {
    if !HasText(p.showName) && !HasText(p.showId) && !HasTopics(p.topics) {
      return Err(Refusal(400, SelectorDetail));
    }
    agent.AddPodcastPreference(p);
    r := Ok(p);
  }
}
