/**
 * Settings (models/config.go). `GetConfig` loads the `.env` file into the
 * environment and copies each variable into a field of `Config`, with a
 * default for variables that are absent; `BuildClientCredentials` sets the
 * Basic-authorisation value, the standard Base64 of "clientID:clientSecret".
 *
 * The environment is a map from variable names to values, as it stands after
 * the `.env` file was loaded; whether loading failed is an input.
 */
module Config {

  import opened Wrappers
  import opened GoStrings

  // ---------------------------------------------------------------------------
  // Base64 (section 4 of RFC 4648)
  // ---------------------------------------------------------------------------

  /** The character of a 6-bit value in the standard alphabet: A-Z, a-z, 0-9, '+', '/'. */
  function Base64Char(d: nat): (c: char)
    requires d < 64
    ensures c != '='
  {
    if d < 26 then ('A' as int + d) as char
    else if d < 52 then ('a' as int + d - 26) as char
    else if d < 62 then ('0' as int + d - 52) as char
    else if d == 62 then '+'
    else '/'
  }

  /** The 6-bit value of a character of the standard alphabet. */
  function Base64Value(c: char): (r: Option<nat>)
    ensures r.Some? ==> r.value < 64
  {
    if 'A' <= c <= 'Z' then Some(c as int - 'A' as int)
    else if 'a' <= c <= 'z' then Some(c as int - 'a' as int + 26)
    else if '0' <= c <= '9' then Some(c as int - '0' as int + 52)
    else if c == '+' then Some(62)
    else if c == '/' then Some(63)
    else None
  }

  lemma Base64CharValue(d: nat)
    requires d < 64
    ensures Base64Value(Base64Char(d)) == Some(d)
  {
  }

  /** The 4 characters of one group of 1 to 3 bytes, padded with '=' after a short final group. */
  function EncodeGroup(bs: seq<Byte>): (g: string)
    requires 1 <= |bs| <= 3
    ensures |g| == 4
  {
    if |bs| == 1 then
      [Base64Char(bs[0] / 4), Base64Char(bs[0] % 4 * 16), '=', '=']
    else if |bs| == 2 then
      [Base64Char(bs[0] / 4), Base64Char(bs[0] % 4 * 16 + bs[1] / 16), Base64Char(bs[1] % 16 * 4), '=']
    else
      [Base64Char(bs[0] / 4), Base64Char(bs[0] % 4 * 16 + bs[1] / 16),
       Base64Char(bs[1] % 16 * 4 + bs[2] / 64), Base64Char(bs[2] % 64)]
  }

  /** `base64.StdEncoding.EncodeToString`: each 3 bytes become 4 characters; a final 1 or 2 bytes are padded to 4. */
  function Base64Encode(bs: seq<Byte>): (s: string)
    ensures |s| == 4 * ((|bs| + 2) / 3)
    decreases |bs|
  {
    if bs == [] then ""
    else
      var n := if |bs| < 3 then |bs| else 3;
      EncodeGroup(bs[..n]) + Base64Encode(bs[n..])
  }

  /** One 4-character group: three bytes, or fewer when padded (padding only in the last group). */
  function DecodeGroup(c0: char, c1: char, c2: char, c3: char, last: bool): Option<seq<Byte>> {
    var v0 := Base64Value(c0);
    var v1 := Base64Value(c1);
    var v2 := Base64Value(c2);
    var v3 := Base64Value(c3);
    if v0.None? || v1.None? then None
    else if last && c2 == '=' && c3 == '=' then
      Some([v0.value * 4 + v1.value / 16])
    else if v2.None? then None
    else if last && c3 == '=' then
      Some([v0.value * 4 + v1.value / 16, v1.value % 16 * 16 + v2.value / 4])
    else if v3.None? then None
    else
      Some([v0.value * 4 + v1.value / 16, v1.value % 16 * 16 + v2.value / 4, v2.value % 4 * 64 + v3.value])
  }

  /** Standard padded Base64 decoding: the text is whole groups of 4 characters. */
  function Base64Decode(s: string): Option<seq<Byte>>
    decreases |s|
  {
    if s == [] then Some([])
    else if |s| < 4 then None
    else
      var head := DecodeGroup(s[0], s[1], s[2], s[3], |s| == 4);
      var rest := Base64Decode(s[4..]);
      if head.Some? && rest.Some? then Some(head.value + rest.value) else None
  }

  lemma DecodeOne(b0: Byte)
    ensures DecodeGroup(Base64Char(b0 / 4), Base64Char(b0 % 4 * 16), '=', '=', true) == Some([b0])
  {
    Base64CharValue(b0 / 4);
    Base64CharValue(b0 % 4 * 16);
  }

  lemma DecodeTwo(b0: Byte, b1: Byte)
    ensures DecodeGroup(Base64Char(b0 / 4), Base64Char(b0 % 4 * 16 + b1 / 16), Base64Char(b1 % 16 * 4), '=', true)
            == Some([b0, b1])
  {
    Base64CharValue(b0 / 4);
    Base64CharValue(b0 % 4 * 16 + b1 / 16);
    Base64CharValue(b1 % 16 * 4);
    var v1 := b0 % 4 * 16 + b1 / 16;
    assert v1 / 16 == b0 % 4 && v1 % 16 == b1 / 16;
    assert (b1 % 16 * 4) / 4 == b1 % 16;
  }

  lemma DecodeThree(b0: Byte, b1: Byte, b2: Byte, last: bool)
    ensures DecodeGroup(Base64Char(b0 / 4), Base64Char(b0 % 4 * 16 + b1 / 16),
                        Base64Char(b1 % 16 * 4 + b2 / 64), Base64Char(b2 % 64), last)
            == Some([b0, b1, b2])
  {
    var v1 := b0 % 4 * 16 + b1 / 16;
    var v2 := b1 % 16 * 4 + b2 / 64;
    Base64CharValue(b0 / 4);
    Base64CharValue(v1);
    Base64CharValue(v2);
    Base64CharValue(b2 % 64);
    assert v1 / 16 == b0 % 4 && v1 % 16 == b1 / 16;
    assert v2 / 4 == b1 % 16 && v2 % 4 == b2 / 64;
  }

  /** A group decodes back to its bytes; a short group only as the last one. */
  lemma GroupRoundTrip(bs: seq<Byte>, last: bool)
    requires 1 <= |bs| <= 3 && (|bs| < 3 ==> last)
    ensures var g := EncodeGroup(bs); DecodeGroup(g[0], g[1], g[2], g[3], last) == Some(bs)
  {
    if |bs| == 1 {
      DecodeOne(bs[0]);
      assert bs == [bs[0]];
    } else if |bs| == 2 {
      DecodeTwo(bs[0], bs[1]);
      assert bs == [bs[0], bs[1]];
    } else {
      DecodeThree(bs[0], bs[1], bs[2], last);
      assert bs == [bs[0], bs[1], bs[2]];
    }
  }

  /** Decoding the encoding of any bytes gives the bytes back. */
  lemma {:induction false} Base64RoundTrip(bs: seq<Byte>)
    ensures Base64Decode(Base64Encode(bs)) == Some(bs)
    decreases |bs|
  {
    if bs != [] {
      var n := if |bs| < 3 then |bs| else 3;
      var g := EncodeGroup(bs[..n]);
      var s := Base64Encode(bs);
      assert s == g + Base64Encode(bs[n..]);
      assert s[0] == g[0] && s[1] == g[1] && s[2] == g[2] && s[3] == g[3];
      assert s[4..] == Base64Encode(bs[n..]);
      GroupRoundTrip(bs[..n], |s| == 4);
      Base64RoundTrip(bs[n..]);
      assert bs == bs[..n] + bs[n..];
    }
  }

  // ---------------------------------------------------------------------------
  // Environment lookup
  // ---------------------------------------------------------------------------

  /** `getEnvStrings(key, defaultValue)`: the variable's value whenever it is set, even to "", else the default. */
  function GetEnvStrings(env: map<string, string>, key: string, defaultValue: string): (v: string)
    ensures key in env ==> v == env[key]
    ensures key !in env ==> v == defaultValue
  {
    if key in env then env[key] else defaultValue
  }

  // ---------------------------------------------------------------------------
  // Config
  // ---------------------------------------------------------------------------

  const ClientCredentialsSeparator := ":"

  /** The member group ID `GetConfig` sets: `strconv.Atoi` of the variable (default "0"), its error dropped. */
  function MemberGroupId(env: map<string, string>): int {
    Atoi(GetEnvStrings(env, "brivo_member_group_id", "0")).value
  }

  /** The debug flag `GetConfig` sets: `strconv.ParseBool` of the variable (default "false"), its error dropped. */
  function DebugFlag(env: map<string, string>): bool {
    ParseBool(GetEnvStrings(env, "debug", "false")).value
  }

  /**
   * The member group ID is 0 when the variable is absent or not a number, and
   * its digits do not overflow: the parse error is dropped.
   */
  lemma MemberGroupIdDefaults(env: map<string, string>)
    requires "brivo_member_group_id" !in env || !Atoi(env["brivo_member_group_id"]).ok
    requires "brivo_member_group_id" in env ==> !AtoiOverflows(env["brivo_member_group_id"])
    ensures MemberGroupId(env) == 0
  {
    if "brivo_member_group_id" !in env {
      assert GetEnvStrings(env, "brivo_member_group_id", "0") == "0";
      assert AllDigits("0") && DigitsValue("0") == 0;
    }
  }

  /**
   * A group ID written as an optional sign and decimal digits (leading zeros
   * and a plus sign included) whose value is in range is taken as that value.
   */
  lemma MemberGroupIdRead(env: map<string, string>)
    requires "brivo_member_group_id" in env
    requires var t := env["brivo_member_group_id"];
             AtoiBody(t) != [] && AllDigits(AtoiBody(t)) && MinInt64 <= SignedValue(t) <= MaxInt64
    ensures MemberGroupId(env) == SignedValue(env["brivo_member_group_id"])
  {
  }

  /** Debug is off unless the variable is set to one of the spellings of true. */
  lemma DebugDefaultsOff(env: map<string, string>)
    ensures DebugFlag(env) <==> "debug" in env && env["debug"] in {"1", "t", "T", "TRUE", "true", "True"}
  {
  }

  /** The values `GetConfig` reads from the environment. */
  datatype Settings = Settings(
    brivoUsername: string,
    brivoPassword: string,
    brivoClientId: string,
    brivoClientSecret: string,
    brivoApiKey: string,
    brivoMemberGroupId: int,
    mindbodyApiKey: string,
    mindbodyUsername: string,
    mindbodyPassword: string,
    mindbodySite: string,
    debug: bool,
    port: string)

  /** Each variable `GetConfig` reads, with its default. */
  function SettingsFrom(env: map<string, string>): Settings {
    Settings(
      GetEnvStrings(env, "brivo_username", ""),
      GetEnvStrings(env, "brivo_password", ""),
      GetEnvStrings(env, "brivo_client_id", ""),
      GetEnvStrings(env, "brivo_client_secret", ""),
      GetEnvStrings(env, "brivo_api_key", ""),
      MemberGroupId(env),
      GetEnvStrings(env, "mindbody_api_key", ""),
      GetEnvStrings(env, "mindbody_username", ""),
      GetEnvStrings(env, "mindbody_password", ""),
      GetEnvStrings(env, "mindbody_site", "-99"),
      DebugFlag(env),
      GetEnvStrings(env, "port", ""))
  }

  /**
   * Every string setting is its variable's value whenever the variable is
   * set, even to "", and otherwise "" except the site, which is "-99".
   */
  lemma SettingsDefaults(env: map<string, string>)
    ensures var s := SettingsFrom(env);
            && s.brivoUsername == (if "brivo_username" in env then env["brivo_username"] else "")
            && s.brivoPassword == (if "brivo_password" in env then env["brivo_password"] else "")
            && s.brivoClientId == (if "brivo_client_id" in env then env["brivo_client_id"] else "")
            && s.brivoClientSecret == (if "brivo_client_secret" in env then env["brivo_client_secret"] else "")
            && s.brivoApiKey == (if "brivo_api_key" in env then env["brivo_api_key"] else "")
            && s.mindbodyApiKey == (if "mindbody_api_key" in env then env["mindbody_api_key"] else "")
            && s.mindbodyUsername == (if "mindbody_username" in env then env["mindbody_username"] else "")
            && s.mindbodyPassword == (if "mindbody_password" in env then env["mindbody_password"] else "")
            && s.mindbodySite == (if "mindbody_site" in env then env["mindbody_site"] else "-99")
            && s.port == (if "port" in env then env["port"] else "")
  {
  }

  /** `Config`: the settings, filled in place. */
  class Config {
    var brivoUsername: string
    var brivoPassword: string
    var brivoClientId: string
    var brivoClientSecret: string
    var brivoApiKey: string
    var brivoMemberGroupId: int
    var brivoClientCredentials: string
    var mindbodyApiKey: string
    var mindbodyUsername: string
    var mindbodyPassword: string
    var mindbodySite: string
    var debug: bool
    var port: string

    /** A zero `Config`. */
    constructor ()
      ensures brivoUsername == "" && brivoPassword == "" && brivoClientId == "" && brivoClientSecret == ""
      ensures brivoApiKey == "" && brivoMemberGroupId == 0 && brivoClientCredentials == ""
      ensures mindbodyApiKey == "" && mindbodyUsername == "" && mindbodyPassword == "" && mindbodySite == ""
      ensures !debug && port == ""
    {
      brivoUsername, brivoPassword, brivoClientId, brivoClientSecret := "", "", "", "";
      brivoApiKey, brivoMemberGroupId, brivoClientCredentials := "", 0, "";
      mindbodyApiKey, mindbodyUsername, mindbodyPassword, mindbodySite := "", "", "", "";
      debug, port := false, "";
    }

    /** The fields `GetConfig` sets hold `settings`. */
    predicate Holds(settings: Settings)
      reads this
    {
      && brivoUsername == settings.brivoUsername
      && brivoPassword == settings.brivoPassword
      && brivoClientId == settings.brivoClientId
      && brivoClientSecret == settings.brivoClientSecret
      && brivoApiKey == settings.brivoApiKey
      && brivoMemberGroupId == settings.brivoMemberGroupId
      && mindbodyApiKey == settings.mindbodyApiKey
      && mindbodyUsername == settings.mindbodyUsername
      && mindbodyPassword == settings.mindbodyPassword
      && mindbodySite == settings.mindbodySite
      && debug == settings.debug
      && port == settings.port
    }

    /**
     * `config.GetConfig()`: a `.env` load failure ends the process before any
     * field is set; otherwise every field but the client credentials is loaded
     * from the environment (see `SettingsDefaults`).
     */
    method GetConfig(loadFailed: bool, env: map<string, string>) returns (exited: bool)
      modifies this
      ensures exited <==> loadFailed
      ensures exited ==> unchanged(this)
      ensures !exited ==> Holds(SettingsFrom(env)) && brivoClientCredentials == old(brivoClientCredentials)
    {
      exited := loadFailed;
      if !loadFailed {
        var s := SettingsFrom(env);
        brivoUsername := s.brivoUsername;
        brivoPassword := s.brivoPassword;
        brivoClientId := s.brivoClientId;
        brivoClientSecret := s.brivoClientSecret;
        brivoApiKey := s.brivoApiKey;
        brivoMemberGroupId := s.brivoMemberGroupId;
        mindbodyApiKey := s.mindbodyApiKey;
        mindbodyUsername := s.mindbodyUsername;
        mindbodyPassword := s.mindbodyPassword;
        mindbodySite := s.mindbodySite;
        debug := s.debug;
        port := s.port;
      }
    }

    /**
     * `config.BuildClientCredentials()`: sets the client credentials to the
     * Base64 of "clientID:clientSecret" and changes nothing else.
     */
    method BuildClientCredentials()
      modifies this
      ensures brivoClientCredentials == Base64Encode(Utf8(brivoClientId + ClientCredentialsSeparator + brivoClientSecret))
      ensures brivoUsername == old(brivoUsername) && brivoPassword == old(brivoPassword)
      ensures brivoClientId == old(brivoClientId) && brivoClientSecret == old(brivoClientSecret)
      ensures brivoApiKey == old(brivoApiKey) && brivoMemberGroupId == old(brivoMemberGroupId)
      ensures mindbodyApiKey == old(mindbodyApiKey) && mindbodyUsername == old(mindbodyUsername)
      ensures mindbodyPassword == old(mindbodyPassword) && mindbodySite == old(mindbodySite)
      ensures debug == old(debug) && port == old(port)
    {
      brivoClientCredentials := Base64Encode(Utf8(brivoClientId + ClientCredentialsSeparator + brivoClientSecret));
    }
  }

  /** The client credentials decode back to "clientID:clientSecret" and have 4 characters per started 3 bytes. */
  lemma ClientCredentialsDecode(clientId: string, clientSecret: string)
    ensures var bytes := Utf8(clientId + ClientCredentialsSeparator + clientSecret);
            && Base64Decode(Base64Encode(bytes)) == Some(bytes)
            && |Base64Encode(bytes)| == 4 * ((|bytes| + 2) / 3)
  {
    Base64RoundTrip(Utf8(clientId + ClientCredentialsSeparator + clientSecret));
  }
}
