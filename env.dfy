/** The start-up configuration check: required settings must be present and
    non-empty, optional ones fall back to defaults. The process environment is
    a map from variable names to values. */
module Env {
  import opened Wrappers

  type Environment = map<string, string>

  const DiscordBotToken: string := "DISCORD_BOT_TOKEN"
  const DiscordAdminRole: string := "DISCORD_ADMIN_ROLE"
  const DiscordGuildId: string := "DISCORD_GUILD_ID"
  const LightsailInstanceName: string := "LIGHTSAIL_INSTANCE_NAME"
  const WebsiteUrl: string := "WEBSITE_URL"
  const AwsRegion: string := "AWS_REGION"

  /** The required variables, in their declared order. */
  const RequiredEnvVars: seq<string> := [DiscordBotToken, DiscordAdminRole, DiscordGuildId]

  const DefaultInstanceName: string := "GreaterFaithChurchSite"
  const DefaultWebsiteUrl: string := "https://greaterfaithchurch.org"
  const DefaultAwsRegion: string := "us-east-1"

  const MissingPrefix: string := "Missing required environment variables: "
  const Separator: string := ", "

  datatype Config = Config(
    discordToken: string,
    adminRole: string,
    guildId: string,
    instanceName: string,
    websiteUrl: string,
    awsRegion: string)

  /** A variable counts as set when it is present with a non-empty value
      (an absent variable and the empty string are both falsy). */
  predicate IsSet(env: Environment, key: string) {
    key in env && env[key] != ""
  }

  /** The keys among `keys` that are not set, keeping their order. */
  function MissingFrom(env: Environment, keys: seq<string>): (r: seq<string>)
    ensures |r| <= |keys|
    ensures forall k :: k in r <==> k in keys && !IsSet(env, k)
  {
    if keys == [] then []
    else
      var rest := MissingFrom(env, keys[1..]);
      if IsSet(env, keys[0]) then rest else [keys[0]] + rest
  }

  /** The `filter` over the required variables. */
  function MissingEnvVars(env: Environment): (r: seq<string>)
    ensures |r| <= |RequiredEnvVars|
    ensures forall k :: k in r <==> k in RequiredEnvVars && !IsSet(env, k)
  {
    MissingFrom(env, RequiredEnvVars)
  }

  /** `parts.join(sep)`. */
  function Join(parts: seq<string>, sep: string): (r: string)
    ensures parts == [] ==> r == ""
    ensures |parts| == 1 ==> r == parts[0]
  {
    if parts == [] then ""
    else if |parts| == 1 then parts[0]
    else parts[0] + sep + Join(parts[1..], sep)
  }

  /** `s` holds `p` as a contiguous piece. */
  ghost predicate Contains(s: string, p: string) {
    exists i :: OccursAt(s, p, i)
  }

  ghost predicate OccursAt(s: string, p: string, i: int) {
    0 <= i <= |s| - |p| && s[i..i + |p|] == p
  }

  /** `env.X || default`. */
  function OrDefault(env: Environment, key: string, default: string): (r: string)
    ensures IsSet(env, key) ==> r == env[key]
    ensures !IsSet(env, key) ==> r == default
    ensures default != "" ==> r != ""
  {
    if IsSet(env, key) then env[key] else default
  }

  /** validateEnv: fails with a message listing every missing required
      variable, or returns the configuration with defaults filled in. */
  function ValidateEnv(env: Environment): (r: Result<Config, string>)
    ensures r.Failure? <==> exists k :: k in RequiredEnvVars && !IsSet(env, k)
    ensures r.Failure? ==> r.error == MissingPrefix + Join(MissingEnvVars(env), Separator)
    ensures r.Success? ==>
              IsSet(env, DiscordBotToken) && r.value.discordToken == env[DiscordBotToken] &&
              IsSet(env, DiscordAdminRole) && r.value.adminRole == env[DiscordAdminRole] &&
              IsSet(env, DiscordGuildId) && r.value.guildId == env[DiscordGuildId]
    ensures r.Success? ==>
              r.value.instanceName == OrDefault(env, LightsailInstanceName, DefaultInstanceName) &&
              r.value.websiteUrl == OrDefault(env, WebsiteUrl, DefaultWebsiteUrl) &&
              r.value.awsRegion == OrDefault(env, AwsRegion, DefaultAwsRegion)
  {
    var missing := MissingEnvVars(env);
    if |missing| > 0 then
      assert missing[0] in missing;
      Failure(MissingPrefix + Join(missing, Separator))
    else
      assert DiscordBotToken in RequiredEnvVars && DiscordAdminRole in RequiredEnvVars
        && DiscordGuildId in RequiredEnvVars;
      Success(Config(
        env[DiscordBotToken],
        env[DiscordAdminRole],
        env[DiscordGuildId],
        OrDefault(env, LightsailInstanceName, DefaultInstanceName),
        OrDefault(env, WebsiteUrl, DefaultWebsiteUrl),
        OrDefault(env, AwsRegion, DefaultAwsRegion)))
  }

  /** The missing list is exactly the unset required keys, in declared order. */
  lemma {:induction false} MissingInDeclaredOrder(env: Environment)
    ensures MissingEnvVars(env) ==
              (if IsSet(env, DiscordBotToken) then [] else [DiscordBotToken]) +
              (if IsSet(env, DiscordAdminRole) then [] else [DiscordAdminRole]) +
              (if IsSet(env, DiscordGuildId) then [] else [DiscordGuildId])
  {
    var keys := RequiredEnvVars;
    assert keys[1..] == [DiscordAdminRole, DiscordGuildId];
    assert keys[1..][1..] == [DiscordGuildId];
    assert keys[1..][1..][1..] == [];
    assert MissingFrom(env, [DiscordGuildId]) ==
             (if IsSet(env, DiscordGuildId) then [] else [DiscordGuildId]);
    assert MissingFrom(env, [DiscordAdminRole, DiscordGuildId]) ==
             (if IsSet(env, DiscordAdminRole) then [] else [DiscordAdminRole]) +
             MissingFrom(env, [DiscordGuildId]);
  }

  lemma {:induction false} ContainsInLeft(s: string, t: string, p: string)
    requires Contains(s, p)
    ensures Contains(s + t, p)
  {
    var i :| OccursAt(s, p, i);
    assert (s + t)[i..i + |p|] == s[i..i + |p|];
    assert OccursAt(s + t, p, i);
  }

  lemma {:induction false} ContainsInRight(s: string, t: string, p: string)
    requires Contains(t, p)
    ensures Contains(s + t, p)
  {
    var i :| OccursAt(t, p, i);
    assert (s + t)[|s| + i..|s| + i + |p|] == t[i..i + |p|];
    assert OccursAt(s + t, p, |s| + i);
  }

  /** Every part appears in the joined text. */
  lemma {:induction false} JoinContainsEachPart(parts: seq<string>, sep: string, j: nat)
    requires j < |parts|
    ensures Contains(Join(parts, sep), parts[j])
    decreases |parts|
  {
    var p := parts[j];
    assert p[0..|p|] == p;
    assert OccursAt(p, p, 0);
    if |parts| == 1 {
      assert Contains(p, p);
    } else if j == 0 {
      assert Contains(p, p);
      ContainsInLeft(p, sep + Join(parts[1..], sep), p);
      assert p + sep + Join(parts[1..], sep) == p + (sep + Join(parts[1..], sep));
    } else {
      JoinContainsEachPart(parts[1..], sep, j - 1);
      ContainsInRight(parts[0] + sep, Join(parts[1..], sep), p);
    }
  }

  /** The failure message names every missing required variable. */
  lemma ErrorNamesEveryMissingKey(env: Environment, k: string)
    requires k in RequiredEnvVars && !IsSet(env, k)
    ensures ValidateEnv(env).Failure?
    ensures Contains(ValidateEnv(env).error, k)
  {
    var missing := MissingEnvVars(env);
    assert k in missing;
    var j :| 0 <= j < |missing| && missing[j] == k;
    JoinContainsEachPart(missing, Separator, j);
    ContainsInRight(MissingPrefix, Join(missing, Separator), k);
  }

  /** Validation fails exactly when the missing list is non-empty. */
  lemma FailsIffSomethingMissing(env: Environment)
    ensures ValidateEnv(env).Failure? <==> MissingEnvVars(env) != []
  {
  }

  /** With all three required variables set, validation succeeds. */
  lemma SucceedsWhenRequiredSet(env: Environment)
    requires IsSet(env, DiscordBotToken) && IsSet(env, DiscordAdminRole) && IsSet(env, DiscordGuildId)
    ensures ValidateEnv(env).Success?
    ensures ValidateEnv(env).value.discordToken != "" && ValidateEnv(env).value.instanceName != ""
  {
  }
}
