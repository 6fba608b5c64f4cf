/** User preferences: values resolved from the environment and the properties file under a
    priority setting, the summary settings, and a transient error banner. The environment
    is an input map and the loaded properties an initial map; reading and writing the file
    is replaced by a flag saying whether the write succeeded. */
module Settings {
  import opened Wrappers
  import opened JavaString

  datatype Priority = ENV | CONFIG

  const ErrorDisplayMs: int := 10_000
  const DefaultSummaryTargetTokens: int := 8000
  /** The file name of the configuration file, as error messages show it. */
  const ConfigFileName: string := "config"
  /** The banner shown when the configuration file could not be read. */
  const UnreadableError: string := "Config unreadable: " + ConfigFileName
  /** The banner shown when the configuration file could not be written. */
  const NotSavedError: string := "Settings not saved: " + ConfigFileName
  const DisabledKey: string := "summary.disabled"

  /** System.getenv: None when the variable is not set. */
  function EnvValue(env: map<string, string>, name: string): Option<string> {
    if name in env then Some(env[name]) else None
  }

  /** Properties.getProperty(key, ""). */
  function PropValue(props: map<string, string>, key: string): string {
    if key in props then props[key] else ""
  }

  /** The bootstrap priority: a non-blank BRIEF_CONFIG_PRIORITY decides; otherwise the
      config.priority property does. Either selects CONFIG only when it reads "config" in
      any letter case. */
  function PriorityFrom(env: map<string, string>, props: map<string, string>): (r: Priority)
    ensures var e := EnvValue(env, "BRIEF_CONFIG_PRIORITY");
      var decider := if e.Some? && !IsBlank(e.value) then e.value else PropValue(props, "config.priority");
      r == CONFIG <==> EqualsIgnoreCase("config", Trim(decider))
  {
    var e := EnvValue(env, "BRIEF_CONFIG_PRIORITY");
    if e.Some? && !IsBlank(e.value) then
      if EqualsIgnoreCase("config", Trim(e.value)) then CONFIG else ENV
    else
      if EqualsIgnoreCase("config", Trim(PropValue(props, "config.priority"))) then CONFIG else ENV
  }

  /** The environment variable wins over the property when both are set. */
  lemma EnvPriorityWins(env: map<string, string>, props: map<string, string>)
    requires "BRIEF_CONFIG_PRIORITY" in env && !IsBlank(env["BRIEF_CONFIG_PRIORITY"])
    ensures PriorityFrom(env, props) == PriorityFrom(env, map[])
  {
    var e := EnvValue(env, "BRIEF_CONFIG_PRIORITY");
    assert e.Some? && !IsBlank(e.value);
  }

  class Config {
    const env: map<string, string>
    var props: map<string, string>
    const priority: Priority
    var lastError: Option<string>
    var lastErrorAt: int

    /** The configuration after `loaded` was read from disk (or, when the read failed,
        nothing was read and `readFailedAt` holds the time). */
    constructor (env: map<string, string>, loaded: map<string, string>, readFailedAt: Option<int>)
      ensures this.env == env && props == loaded
      ensures priority == PriorityFrom(env, loaded)
      ensures readFailedAt.None? ==> lastError.None?
      ensures readFailedAt.Some? ==>
        lastError == Some(UnreadableError) && lastErrorAt == readFailedAt.value
    {
      this.env := env;
      props := loaded;
      priority := PriorityFrom(env, loaded);
      if readFailedAt.Some? {
        lastError := Some(UnreadableError);
        lastErrorAt := readFailedAt.value;
      } else {
        lastError := None;
        lastErrorAt := 0;
      }
    }

    predicate HasEnv(envVar: string) reads this {
      envVar in env && !IsBlank(env[envVar])
    }

    predicate HasCfg(propKey: string) reads this {
      |Trim(PropValue(props, propKey))| > 0
    }

    /** resolve: the trimmed value from the source the priority prefers, falling back to
        the other, None when neither is set. */
    function Resolve(envVar: string, propKey: string): (r: Option<string>)
      reads this
      ensures r.None? <==> !HasEnv(envVar) && !HasCfg(propKey)
      ensures r.Some? ==> (HasEnv(envVar) && r.value == Trim(env[envVar])) || r.value == Trim(PropValue(props, propKey))
      ensures HasEnv(envVar) && (priority == ENV || !HasCfg(propKey)) ==> r == Some(Trim(env[envVar]))
      ensures HasCfg(propKey) && (priority == CONFIG || !HasEnv(envVar)) ==> r == Some(Trim(PropValue(props, propKey)))
    {
      var cfg := Trim(PropValue(props, propKey));
      if priority == CONFIG then
        if |cfg| > 0 then Some(cfg) else if HasEnv(envVar) then Some(Trim(env[envVar])) else None
      else
        if HasEnv(envVar) then Some(Trim(env[envVar])) else if |cfg| > 0 then Some(cfg) else None
    }

    /** set: stores the trimmed value (null as ""), then writes the file; a failed write
        sets the error banner. */
    method Set(key: string, value: Option<string>, saved: bool, now: int)
      modifies this
      ensures props == old(props)[key := if value.Some? then Trim(value.value) else ""]
      ensures saved ==> lastError == old(lastError) && lastErrorAt == old(lastErrorAt)
      ensures !saved ==> lastError == Some(NotSavedError) && lastErrorAt == now
    {
      props := props[key := if value.Some? then Trim(value.value) else ""];
      if !saved {
        lastError := Some(NotSavedError);
        lastErrorAt := now;
      }
    }

    /** Summarisation is on unless summary.disabled reads "true" in any letter case. */
    predicate IsSummaryEnabled()
      reads this
      ensures DisabledKey !in props ==> IsSummaryEnabled()
      ensures PropValue(props, DisabledKey) == FlagText(true) ==> !IsSummaryEnabled()
      ensures PropValue(props, DisabledKey) == FlagText(false) ==> IsSummaryEnabled()
    {
      FlagTextReads(true);
      FlagTextReads(false);
      !EqualsIgnoreCase("true", Trim(PropValue(props, DisabledKey)))
    }

    method SetSummaryDisabled(disabled: bool, saved: bool, now: int)
      modifies this
      ensures IsSummaryEnabled() == !disabled
      ensures props == old(props)[DisabledKey := FlagText(disabled)]
      ensures saved ==> lastError == old(lastError) && lastErrorAt == old(lastErrorAt)
      ensures !saved ==> lastError == Some(NotSavedError) && lastErrorAt == now
    {
      var flag := FlagText(disabled);
      FlagTextReads(disabled);
      Set(DisabledKey, Some(flag), saved, now);
      assert props == old(props)[DisabledKey := flag];
      assert PropValue(props, DisabledKey) == flag;
    }

    /** getSummaryTargetTokens: a positive parsed value, else 8000. */
    function GetSummaryTargetTokens(): (r: int)
      reads this
      ensures 0 < r <= INT_MAX
      ensures var p := ParseInt(Trim(PropValue(props, "summary.target_tokens")));
        (p.Some? && p.value > 0 ==> r == p.value) && (p.None? || p.value <= 0 ==> r == DefaultSummaryTargetTokens)
    {
      var cfg := Trim(PropValue(props, "summary.target_tokens"));
      if |cfg| > 0 then
        var parsed := match ParseInt(cfg) case Some(v) => v case None => -1;
        if parsed > 0 then parsed else DefaultSummaryTargetTokens
      else DefaultSummaryTargetTokens
    }

    /** setSummaryTargetTokens stores the decimal text, which reads back as the value when
        it is positive and as the default otherwise. */
    method SetSummaryTargetTokens(tokens: int, saved: bool, now: int)
      requires INT_MIN <= tokens <= INT_MAX
      modifies this
      ensures tokens > 0 ==> GetSummaryTargetTokens() == tokens
      ensures tokens <= 0 ==> GetSummaryTargetTokens() == DefaultSummaryTargetTokens
      ensures props == old(props)["summary.target_tokens" := IntToString(tokens)]
      ensures forall k | k != "summary.target_tokens" :: PropValue(props, k) == PropValue(old(props), k)
      ensures saved ==> lastError == old(lastError) && lastErrorAt == old(lastErrorAt)
      ensures !saved ==> lastError == Some(NotSavedError) && lastErrorAt == now
    {
      Set("summary.target_tokens", Some(IntToString(tokens)), saved, now);
      ParseIntRoundTrip(tokens);
    }

    /** transientError: the banner while it is at most ten seconds old; afterwards (or when
        there is none) None, and the banner is dropped. */
    method TransientError(nowMs: int) returns (r: Option<string>)
      modifies this
      ensures old(lastError).None? || nowMs - old(lastErrorAt) > ErrorDisplayMs ==> r.None? && lastError.None?
      ensures old(lastError).Some? && nowMs - old(lastErrorAt) <= ErrorDisplayMs ==>
        r == old(lastError) && lastError == old(lastError)
      ensures props == old(props) && lastErrorAt == old(lastErrorAt)
    {
      if lastError.None? || nowMs - lastErrorAt > ErrorDisplayMs {
        lastError := None;
        return None;
      }
      return lastError;
    }
  }

  /** The word setSummaryDisabled writes: it survives the trim, and only "true" disables. */
  function FlagText(disabled: bool): string {
    if disabled then "true" else "false"
  }

  /** The flag written survives the trim, and reads back as "true" exactly when set. */
  lemma FlagTextReads(disabled: bool)
    ensures Trim(FlagText(disabled)) == FlagText(disabled)
    ensures EqualsIgnoreCase("true", FlagText(disabled)) <==> disabled
  {
    var r := FlagText(disabled);
    assert forall i | 0 <= i < |r| :: !IsTrimmable(r[i]);
    TrimNoOp(r);
    if !disabled {
      assert ToLower("true")[0] == 't' && ToLower(r)[0] == 'f';
    }
  }

  /** With only one source set, the priority does not matter. */
  lemma OneSourceIgnoresPriority(a: Config, b: Config, envVar: string, propKey: string)
    requires a.env == b.env && a.props == b.props
    requires !(a.HasEnv(envVar) && a.HasCfg(propKey))
    ensures a.Resolve(envVar, propKey) == b.Resolve(envVar, propKey)
  {
  }
}
