/**
 * Tenant configuration resolver (functions/_shared/config.js).
 *
 * Tenants are named by labels listed in `APP_LABELS`; each tenant's
 * credentials live in environment variables prefixed with the label's
 * upper-cased form, such as `ACME_OAUTH_CLIENT_ID`.
 */
module Config {
  import opened Wrappers
  import opened Strings

  /** The process environment: a missing variable and an empty one read alike. */
  type Env = map<string, string>

  /** `process.env[key] || ""` */
  function EnvGet(env: Env, key: string): string {
    if key in env then env[key] else ""
  }

  /** `parseLabels`: the tenant labels configured in `APP_LABELS`, in order. */
  function ParseLabels(env: Env): (labels: seq<string>)
    ensures forall i :: 0 <= i < |labels| ==> IsListEntry(labels[i])
  {
    ParseListEntries(EnvGet(env, "APP_LABELS"));
    ParseList(EnvGet(env, "APP_LABELS"))
  }

  /** `listAppLabels`, the exported name of `parseLabels`. */
  function ListAppLabels(env: Env): seq<string> {
    ParseLabels(env)
  }

  // ---- toPrefix ----------------------------------------------------------

  predicate IsPrefixChar(c: char) {
    'A' <= c <= 'Z' || '0' <= c <= '9' || c == '_'
  }

  /** One character of `label.toUpperCase().replace(/[^A-Z0-9]/g, "_")`. */
  function PrefixChar(c: char): char {
    if 'a' <= c <= 'z' then (c as int - 32) as char
    else if 'A' <= c <= 'Z' || '0' <= c <= '9' then c
    else '_'
  }

  /** `toPrefix`: the label upper-cased, with every character outside [A-Z0-9] replaced by `_`. */
  function ToPrefix(appLabel: string): (p: string)
    ensures |p| == |appLabel|
    ensures forall i :: 0 <= i < |p| ==> IsPrefixChar(p[i])
    ensures forall i :: 0 <= i < |p| && 'a' <= appLabel[i] <= 'z' ==> p[i] as int == appLabel[i] as int - 32
    ensures forall i :: 0 <= i < |p| && IsPrefixChar(appLabel[i]) ==> p[i] == appLabel[i]
    ensures forall i :: 0 <= i < |p| && !('a' <= appLabel[i] <= 'z') && !IsPrefixChar(appLabel[i]) ==> p[i] == '_'
  {
    seq(|appLabel|, i requires 0 <= i < |appLabel| => PrefixChar(appLabel[i]))
  }

  /** Applying `toPrefix` twice changes nothing more. */
  lemma ToPrefixIdempotent(appLabel: string)
    ensures ToPrefix(ToPrefix(appLabel)) == ToPrefix(appLabel)
  {
  }

  // ---- resolveAppLabel, defaultInstallLabel ------------------------------

  /**
   * `resolveAppLabel(fromQuery)`: an explicitly requested appLabel that is
   * configured, else the only configured appLabel, else "" (no appLabel).
   */
  function ResolveAppLabel(env: Env, fromQuery: Option<string>): (r: string)
    ensures r == "" || r in ParseLabels(env)
    ensures fromQuery.Some? && fromQuery.value != "" && fromQuery.value in ParseLabels(env) ==> r == fromQuery.value
    ensures |ParseLabels(env)| == 1 ==> r == ParseLabels(env)[0]
    ensures |ParseLabels(env)| == 0 ==> r == ""
    ensures |ParseLabels(env)| >= 2 && (fromQuery.None? || fromQuery.value !in ParseLabels(env)) ==> r == ""
  {
    PickLabel(ParseLabels(env), fromQuery)
  }

  /** The choice `resolveAppLabel` makes among the configured `labels`. */
  function PickLabel(labels: seq<string>, fromQuery: Option<string>): (r: string)
    ensures r == "" || r in labels
    ensures fromQuery.Some? && fromQuery.value != "" && fromQuery.value in labels ==> r == fromQuery.value
    ensures |labels| == 1 ==> r == labels[0]
    ensures |labels| == 0 ==> r == ""
    ensures |labels| >= 2 && (fromQuery.None? || fromQuery.value !in labels) ==> r == ""
  {
    if fromQuery.Some? && fromQuery.value != "" && fromQuery.value in labels then fromQuery.value
    else if |labels| == 1 then labels[0]
    else ""
  }

  /** `defaultInstallLabel`: the first configured appLabel, or "" when none is configured. */
  function DefaultInstallLabel(env: Env): (r: string)
    ensures ParseLabels(env) == [] ==> r == ""
    ensures ParseLabels(env) != [] ==> r == ParseLabels(env)[0] && r != ""
  {
    var labels := ParseLabels(env);
    if |labels| > 0 then labels[0] else ""
  }

  // ---- getAppConfig ------------------------------------------------------

  /** The `cfg` bundle: the label and the six per-tenant variables. */
  datatype AppConfig = AppConfig(
    appLabel: string,
    region: string,
    appUid: string,
    clientId: string,
    clientSecret: string,
    redirectUri: string,
    scope: string)

  /** `{ ok: true, cfg }` or `{ ok: false, error }` */
  datatype ConfigResult = ConfigOk(cfg: AppConfig) | ConfigErr(error: string)

  /** The keys that must be non-empty, in the order they are checked. `OAUTH_SCOPE` is not among them. */
  const RequiredKeys: seq<string> :=
    ["CONTENTSTACK_REGION", "CONTENTSTACK_APP_UID", "OAUTH_CLIENT_ID", "OAUTH_CLIENT_SECRET", "OAUTH_REDIRECT_URI"]

  /** `${P}_${key}` */
  function EnvKey(prefix: string, key: string): string {
    prefix + "_" + key
  }

  /** `cfg[key]` for the keys of the bundle. */
  function Field(cfg: AppConfig, key: string): string {
    if key == "CONTENTSTACK_REGION" then cfg.region
    else if key == "CONTENTSTACK_APP_UID" then cfg.appUid
    else if key == "OAUTH_CLIENT_ID" then cfg.clientId
    else if key == "OAUTH_CLIENT_SECRET" then cfg.clientSecret
    else if key == "OAUTH_REDIRECT_URI" then cfg.redirectUri
    else if key == "OAUTH_SCOPE" then cfg.scope
    else ""
  }

  /** The `cfg` object literal: each field is the tenant's variable, or "" when unset. */
  function ReadConfig(env: Env, appLabel: string): AppConfig {
    var p := ToPrefix(appLabel);
    AppConfig(appLabel,
      EnvGet(env, EnvKey(p, "CONTENTSTACK_REGION")),
      EnvGet(env, EnvKey(p, "CONTENTSTACK_APP_UID")),
      EnvGet(env, EnvKey(p, "OAUTH_CLIENT_ID")),
      EnvGet(env, EnvKey(p, "OAUTH_CLIENT_SECRET")),
      EnvGet(env, EnvKey(p, "OAUTH_REDIRECT_URI")),
      EnvGet(env, EnvKey(p, "OAUTH_SCOPE")))
  }

  /** What `forEach` pushes onto `missing` for `keys`, in order. */
  function MissingAmong(prefix: string, cfg: AppConfig, keys: seq<string>): seq<string> {
    if keys == [] then []
    else
      var last := keys[|keys| - 1];
      MissingAmong(prefix, cfg, keys[..|keys| - 1]) + (if Field(cfg, last) == "" then [EnvKey(prefix, last)] else [])
  }

  /** The prefixed names of the required variables that are unset or empty. */
  function MissingKeys(env: Env, appLabel: string): seq<string> {
    MissingAmong(ToPrefix(appLabel), ReadConfig(env, appLabel), RequiredKeys)
  }

  function MissingMessage(appLabel: string, missing: seq<string>): string {
    "Missing env for app '" + appLabel + "': " + Join(missing, ", ")
  }

  /** The result `getAppConfig(appLabel)` returns. */
  function ResolveConfig(env: Env, appLabel: string): ConfigResult {
    var missing := MissingKeys(env, appLabel);
    if |missing| > 0 then ConfigErr(MissingMessage(appLabel, missing))
    else ConfigOk(ReadConfig(env, appLabel))
  }

  /** `getAppConfig(appLabel)`, which collects the missing keys with `forEach` and `push`. */
  method GetAppConfig(env: Env, appLabel: string) returns (r: ConfigResult)
    ensures r == ResolveConfig(env, appLabel)
  {
    var p := ToPrefix(appLabel);
    var cfg := ReadConfig(env, appLabel);
    var missing: seq<string> := [];
    for i := 0 to |RequiredKeys|
      invariant missing == MissingAmong(p, cfg, RequiredKeys[..i])
    {
      var k := RequiredKeys[i];
      assert RequiredKeys[..i + 1][..i] == RequiredKeys[..i];
      if Field(cfg, k) == "" {
        missing := missing + [EnvKey(p, k)];
      }
    }
    assert RequiredKeys[..|RequiredKeys|] == RequiredKeys;
    if |missing| > 0 {
      return ConfigErr(MissingMessage(appLabel, missing));
    }
    return ConfigOk(cfg);
  }

  // ---- properties of getAppConfig ----------------------------------------

  /** Every required field of the bundle is the tenant's variable. */
  lemma FieldIsEnv(env: Env, appLabel: string, key: string)
    requires key in RequiredKeys || key == "OAUTH_SCOPE"
    ensures Field(ReadConfig(env, appLabel), key) == EnvGet(env, EnvKey(ToPrefix(appLabel), key))
  {
  }

  lemma {:induction false} MissingAmongMembers(prefix: string, cfg: AppConfig, keys: seq<string>)
    ensures forall k :: k in MissingAmong(prefix, cfg, keys) <==>
      exists key :: key in keys && Field(cfg, key) == "" && k == EnvKey(prefix, key)
  {
    if keys != [] {
      var init := keys[..|keys| - 1];
      MissingAmongMembers(prefix, cfg, init);
      assert keys == init + [keys[|keys| - 1]];
    }
  }

  /** The prefixed required keys in checking order. */
  function PrefixedKeys(prefix: string, keys: seq<string>): (r: seq<string>)
    ensures |r| == |keys|
    ensures forall i :: 0 <= i < |keys| ==> r[i] == EnvKey(prefix, keys[i])
  {
    seq(|keys|, i requires 0 <= i < |keys| => EnvKey(prefix, keys[i]))
  }

  lemma {:induction false} MissingAmongOrdered(prefix: string, cfg: AppConfig, keys: seq<string>)
    ensures IsSubsequence(MissingAmong(prefix, cfg, keys), PrefixedKeys(prefix, keys))
  {
    if keys != [] {
      var init := keys[..|keys| - 1];
      var last := keys[|keys| - 1];
      var m := MissingAmong(prefix, cfg, init);
      MissingAmongOrdered(prefix, cfg, init);
      assert PrefixedKeys(prefix, keys) == PrefixedKeys(prefix, init) + [EnvKey(prefix, last)];
      SubsequenceAppend(m, PrefixedKeys(prefix, init), EnvKey(prefix, last));
      if Field(cfg, last) == "" {
        assert MissingAmong(prefix, cfg, keys) == m + [EnvKey(prefix, last)];
      } else {
        assert MissingAmong(prefix, cfg, keys) == m;
      }
    }
  }

  /**
   * `getAppConfig` succeeds exactly when the five required variables are all
   * set and non-empty.
   */
  lemma ConfigOkIff(env: Env, appLabel: string)
    ensures ResolveConfig(env, appLabel).ConfigOk? <==>
      forall key :: key in RequiredKeys ==> EnvGet(env, EnvKey(ToPrefix(appLabel), key)) != ""
  {
    var p := ToPrefix(appLabel);
    var cfg := ReadConfig(env, appLabel);
    MissingAmongMembers(p, cfg, RequiredKeys);
    if ResolveConfig(env, appLabel).ConfigOk? {
      forall key | key in RequiredKeys ensures EnvGet(env, EnvKey(p, key)) != "" {
        FieldIsEnv(env, appLabel, key);
        assert EnvKey(p, key) !in MissingKeys(env, appLabel);
      }
    } else {
      var k := MissingKeys(env, appLabel)[0];
      assert k in MissingAmong(p, cfg, RequiredKeys);
      var key :| key in RequiredKeys && Field(cfg, key) == "" && k == EnvKey(p, key);
      FieldIsEnv(env, appLabel, key);
    }
  }

  /**
   * On success the bundle carries the label and the tenant's variables,
   * the required ones non-empty and the scope "" when unset.
   */
  lemma ConfigOkFields(env: Env, appLabel: string)
    requires ResolveConfig(env, appLabel).ConfigOk?
    ensures var cfg := ResolveConfig(env, appLabel).cfg; var p := ToPrefix(appLabel);
      && cfg.appLabel == appLabel
      && cfg.region == EnvGet(env, EnvKey(p, "CONTENTSTACK_REGION")) != ""
      && cfg.appUid == EnvGet(env, EnvKey(p, "CONTENTSTACK_APP_UID")) != ""
      && cfg.clientId == EnvGet(env, EnvKey(p, "OAUTH_CLIENT_ID")) != ""
      && cfg.clientSecret == EnvGet(env, EnvKey(p, "OAUTH_CLIENT_SECRET")) != ""
      && cfg.redirectUri == EnvGet(env, EnvKey(p, "OAUTH_REDIRECT_URI")) != ""
      && cfg.scope == EnvGet(env, EnvKey(p, "OAUTH_SCOPE"))
  {
    ConfigOkIff(env, appLabel);
    assert ResolveConfig(env, appLabel).cfg == ReadConfig(env, appLabel);
    var p := ToPrefix(appLabel);
    assert "CONTENTSTACK_REGION" in RequiredKeys && "CONTENTSTACK_APP_UID" in RequiredKeys
      && "OAUTH_CLIENT_ID" in RequiredKeys && "OAUTH_CLIENT_SECRET" in RequiredKeys
      && "OAUTH_REDIRECT_URI" in RequiredKeys;
  }

  /**
   * On failure the error names exactly the required variables that are
   * unset or empty, each as `${P}_${key}`, in the fixed checking order.
   */
  lemma ConfigErrNamesMissing(env: Env, appLabel: string)
    ensures var p := ToPrefix(appLabel); var missing := MissingKeys(env, appLabel);
      && (ResolveConfig(env, appLabel).ConfigErr? <==> |missing| > 0)
      && (ResolveConfig(env, appLabel).ConfigErr? ==> ResolveConfig(env, appLabel).error == MissingMessage(appLabel, missing))
      && (forall k :: k in missing <==>
            exists key :: key in RequiredKeys && EnvGet(env, EnvKey(p, key)) == "" && k == EnvKey(p, key))
      && IsSubsequence(missing, PrefixedKeys(p, RequiredKeys))
  {
    var p := ToPrefix(appLabel);
    var cfg := ReadConfig(env, appLabel);
    MissingAmongMembers(p, cfg, RequiredKeys);
    MissingAmongOrdered(p, cfg, RequiredKeys);
    forall key | key in RequiredKeys ensures Field(cfg, key) == EnvGet(env, EnvKey(p, key)) {
      FieldIsEnv(env, appLabel, key);
    }
  }

  /** `OAUTH_SCOPE` is never required: its value does not decide success. */
  lemma ScopeNeverRequired(env: Env, appLabel: string, scope: string)
    ensures var env' := env[EnvKey(ToPrefix(appLabel), "OAUTH_SCOPE") := scope];
      ResolveConfig(env', appLabel).ConfigOk? == ResolveConfig(env, appLabel).ConfigOk?
  {
    var p := ToPrefix(appLabel);
    var env' := env[EnvKey(p, "OAUTH_SCOPE") := scope];
    forall key | key in RequiredKeys ensures EnvGet(env', EnvKey(p, key)) == EnvGet(env, EnvKey(p, key)) {
      assert |EnvKey(p, key)| != |EnvKey(p, "OAUTH_SCOPE")|;
    }
    ConfigOkIff(env, appLabel);
    ConfigOkIff(env', appLabel);
  }

  /**
   * Labels with the same prefix read the same variables: `acme-eu` and
   * `ACME_EU` share one configuration.
   */
  lemma SamePrefixSameConfig(env: Env, a: string, b: string)
    requires ToPrefix(a) == ToPrefix(b)
    ensures ReadConfig(env, a).(appLabel := b) == ReadConfig(env, b)
    ensures ResolveConfig(env, a).ConfigOk? == ResolveConfig(env, b).ConfigOk?
  {
    ConfigOkIff(env, a);
    ConfigOkIff(env, b);
  }
}
