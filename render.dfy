/**
 * The field renderers of `AkamaiStreaming` and the token built from them: `raw_token`, the signed
 * `token_digest`, its `chomp`ed form and the final `encrypted_token`.
 */
module Render {
  import opened Results
  import opened HexKey
  import opened Decimal
  import opened TokenConfig

  predicate EndsWith(s: string, suffix: string) {
    |suffix| <= |s| && s[|s| - |suffix|..] == suffix
  }

  predicate NoSlash(s: string) {
    forall i :: 0 <= i < |s| ==> s[i] != '/'
  }

  /** The generated `<field>_field` method: `"<wire>=<value><delimiter>"`, or "" when the value is nil. */
  function Field(wire: string, value: Option<string>, delimiter: string): (r: string)
    ensures value.None? ==> r == ""
    ensures value.Some? ==> |r| > |wire| && r[..|wire| + 1] == wire + "=" && EndsWith(r, delimiter)
  {
    match value
    case None => ""
    case Some(v) => wire + "=" + v + delimiter
  }

  /** `start_time_field`: the generated renderer on an integer, which is never nil and so always rendered. */
  function StartTimeField(c: Config): (r: string)
    ensures |r| > 3 && r[..3] == "st=" && EndsWith(r, c.fieldDelimiter)
  {
    Field("st", Some(IntToString(c.startTime)), c.fieldDelimiter)
  }

  function UrlField(c: Config): (r: string)
    ensures r == "" <==> c.url.None?
    ensures c.url.Some? ==> |r| >= 4 && r[..4] == "url=" && EndsWith(r, c.fieldDelimiter)
  {
    Field("url", c.url, c.fieldDelimiter)
  }

  function IpField(c: Config): (r: string)
    ensures r == "" <==> c.ip.None?
    ensures c.ip.Some? ==> |r| >= 3 && r[..3] == "ip=" && EndsWith(r, c.fieldDelimiter)
  {
    Field("ip", c.ip, c.fieldDelimiter)
  }

  function SessionIdField(c: Config): (r: string)
    ensures r == "" <==> c.sessionId.None?
    ensures c.sessionId.Some? ==> |r| >= 3 && r[..3] == "id=" && EndsWith(r, c.fieldDelimiter)
  {
    Field("id", c.sessionId, c.fieldDelimiter)
  }

  function DataField(c: Config): (r: string)
    ensures r == "" <==> c.data.None?
    ensures c.data.Some? ==> |r| >= 5 && r[..5] == "data=" && EndsWith(r, c.fieldDelimiter)
  {
    Field("data", c.data, c.fieldDelimiter)
  }

  function SaltField(c: Config): (r: string)
    ensures r == "" <==> c.salt.None?
    ensures c.salt.Some? ==> |r| >= 5 && r[..5] == "salt=" && EndsWith(r, c.fieldDelimiter)
  {
    Field("salt", c.salt, c.fieldDelimiter)
  }

  /** `expiration_field`: computed from start time and window, always rendered. */
  function ExpirationField(c: Config): (r: string)
    ensures |r| > 4 && r[..4] == "exp=" && EndsWith(r, c.fieldDelimiter)
  {
    "exp=" + IntToString(c.startTime + c.window) + c.fieldDelimiter
  }

  /** `acl_field`: the wildcard only when neither acl nor url is set; otherwise the acl, nil rendering as "". */
  function AclField(c: Config): (r: string)
    ensures |r| >= 4 && r[..4] == "acl=" && EndsWith(r, c.fieldDelimiter)
  {
    if c.acl.None? && c.url.None? then "acl=/*" + c.fieldDelimiter
    else "acl=" + c.acl.GetOr("") + c.fieldDelimiter
  }

  /** `raw_token`: `acl_field` is always present, so the token always ends with the delimiter. */
  function RawToken(c: Config): (r: string)
    ensures EndsWith(r, c.fieldDelimiter)
  {
    var upToAcl := IpField(c) + StartTimeField(c) + ExpirationField(c) + AclField(c);
    EndsWithAppend(IpField(c) + StartTimeField(c) + ExpirationField(c), AclField(c), c.fieldDelimiter);
    EndsWithField(upToAcl, SessionIdField(c), c.fieldDelimiter);
    EndsWithField(upToAcl + SessionIdField(c), DataField(c), c.fieldDelimiter);
    upToAcl + SessionIdField(c) + DataField(c)
  }

  /** The string the HMAC is computed over. */
  function TokenDigest(c: Config): (r: string)
    ensures EndsWith(r, c.fieldDelimiter)
  {
    EndsWithField(RawToken(c), UrlField(c), c.fieldDelimiter);
    EndsWithField(RawToken(c) + UrlField(c), SaltField(c), c.fieldDelimiter);
    RawToken(c) + UrlField(c) + SaltField(c)
  }

  /** Ruby's `chomp("")`: every trailing "\n" or "\r\n" is removed. */
  function ChompNewlines(s: string): (r: string)
    ensures |r| <= |s| && r == s[..|r|]
    decreases |s|
  {
    if |s| > 0 && s[|s| - 1] == '\n' then
      var t := s[..|s| - 1];
      ChompNewlines(if |t| > 0 && t[|t| - 1] == '\r' then t[..|t| - 1] else t)
    else s
  }

  /**
   * Ruby's `String#chomp(separator)`. A one-character "\n" removes a trailing "\r\n", "\n" or "\r";
   * the empty separator removes all trailing newlines; any other separator is removed once if it
   * ends the string.
   */
  function Chomp(s: string, separator: string): (r: string)
    ensures |r| <= |s| && r == s[..|r|]
  {
    if separator == "" then ChompNewlines(s)
    else if separator == "\n" then
      if |s| > 0 && s[|s| - 1] == '\n' then
        if |s| > 1 && s[|s| - 2] == '\r' then s[..|s| - 2] else s[..|s| - 1]
      else if |s| > 0 && s[|s| - 1] == '\r' then s[..|s| - 1]
      else s
    else if EndsWith(s, separator) then s[..|s| - |separator|]
    else s
  }

  /** `trimmed_token_digest` */
  function TrimmedTokenDigest(c: Config): (r: string)
    ensures |r| <= |TokenDigest(c)| && r == TokenDigest(c)[..|r|]
    ensures c.fieldDelimiter != "" ==> |r| < |TokenDigest(c)|
  {
    ChompShortens(TokenDigest(c), c.fieldDelimiter);
    Chomp(TokenDigest(c), c.fieldDelimiter)
  }

  /** `gsub('/', '%2f')` */
  function EscapeSlashes(s: string): (r: string)
    ensures NoSlash(r)
    ensures |r| >= |s|
  {
    if s == [] then []
    else (if s[0] == '/' then "%2f" else [s[0]]) + EscapeSlashes(s[1..])
  }

  /**
   * `encrypted_token`. `hmac` stands for `OpenSSL::HMAC.hexdigest('sha256', key, message)`: the
   * digest algorithm is fixed to SHA-256, whatever `algo` holds.
   */
  function EncryptedToken(c: Config, hmac: (seq<byte>, string) -> string): (r: string)
    ensures NoSlash(r)
  {
    EscapeSlashes(RawToken(c) + "hmac=" + hmac(c.key, TrimmedTokenDigest(c)))
  }

  // Properties of the renderers.

  /** A nil field renders as nothing, a set one as its wire name, "=", the value and the delimiter. */
  lemma OptionalFields(c: Config)
    ensures c.ip.None? ==> IpField(c) == ""
    ensures c.ip.Some? ==> IpField(c) == "ip=" + c.ip.value + c.fieldDelimiter
    ensures c.sessionId.None? ==> SessionIdField(c) == ""
    ensures c.sessionId.Some? ==> SessionIdField(c) == "id=" + c.sessionId.value + c.fieldDelimiter
    ensures c.data.None? ==> DataField(c) == ""
    ensures c.data.Some? ==> DataField(c) == "data=" + c.data.value + c.fieldDelimiter
    ensures c.salt.None? ==> SaltField(c) == ""
    ensures c.salt.Some? ==> SaltField(c) == "salt=" + c.salt.value + c.fieldDelimiter
    ensures c.url.None? ==> UrlField(c) == ""
    ensures c.url.Some? ==> UrlField(c) == "url=" + c.url.value + c.fieldDelimiter
  {
  }

  /** The text of the start-time field. */
  lemma StartTimeFieldText(c: Config)
    ensures StartTimeField(c) == "st=" + IntToString(c.startTime) + c.fieldDelimiter
  {
    assert "st" + "=" == "st=";
  }

  /** `st=` carries the start time, and reads back as it. */
  lemma StartTimeFieldReadsBack(c: Config)
    ensures var f := StartTimeField(c);
      |f| == 3 + |IntToString(c.startTime)| + |c.fieldDelimiter| &&
      f[..3] == "st=" && EndsWith(f, c.fieldDelimiter) &&
      ParseInt(f[3..|f| - |c.fieldDelimiter|]) == c.startTime
  {
    var f := StartTimeField(c);
    assert f[3..|f| - |c.fieldDelimiter|] == IntToString(c.startTime);
    IntToStringRoundTrip(c.startTime);
  }

  /** `exp=` carries start time plus window, and reads back as that sum. */
  lemma ExpirationFieldReadsBack(c: Config)
    ensures var f := ExpirationField(c);
      |f| == 4 + |IntToString(c.startTime + c.window)| + |c.fieldDelimiter| &&
      f[..4] == "exp=" && EndsWith(f, c.fieldDelimiter) &&
      ParseInt(f[4..|f| - |c.fieldDelimiter|]) == c.startTime + c.window
  {
    var f := ExpirationField(c);
    assert f[4..|f| - |c.fieldDelimiter|] == IntToString(c.startTime + c.window);
    IntToStringRoundTrip(c.startTime + c.window);
  }

  /** Start time 123 and window 10 give "st=123~" and "exp=133~". */
  lemma FieldExamples(c: Config)
    requires c.startTime == 123 && c.window == 10 && c.fieldDelimiter == "~"
    ensures StartTimeField(c) == "st=123~"
    ensures ExpirationField(c) == "exp=133~"
  {
    assert NatToString(12) == "12";
    assert NatToString(13) == "13";
  }

  /** The three cases of `acl_field`. */
  lemma AclFieldCases(c: Config)
    ensures c.acl.None? && c.url.None? ==> AclField(c) == "acl=/*" + c.fieldDelimiter
    ensures c.acl.None? && c.url.Some? ==> AclField(c) == "acl=" + c.fieldDelimiter
    ensures c.acl.Some? ==> AclField(c) == "acl=" + c.acl.value + c.fieldDelimiter
  {
  }

  /** `raw_token` is always where `token_digest` starts, and is all of it without url and salt. */
  lemma TokenDigestExtendsRawToken(c: Config)
    ensures |RawToken(c)| <= |TokenDigest(c)| && TokenDigest(c)[..|RawToken(c)|] == RawToken(c)
    ensures c.url.None? && c.salt.None? ==> TokenDigest(c) == RawToken(c)
  {
  }

  lemma EndsWithAppend(a: string, b: string, d: string)
    requires EndsWith(b, d)
    ensures EndsWith(a + b, d)
  {
    assert (a + b)[|a + b| - |d|..] == b[|b| - |d|..];
  }

  /** A field that is empty or ends in the delimiter keeps the delimiter at the end of what it is appended to. */
  lemma EndsWithField(a: string, f: string, d: string)
    requires EndsWith(a, d)
    requires f == "" || EndsWith(f, d)
    ensures EndsWith(a + f, d)
  {
    if f == "" {
      assert a + f == a;
    } else {
      EndsWithAppend(a, f, d);
    }
  }

  /** For an ordinary separator, `chomp` removes one trailing occurrence and nothing else. */
  lemma ChompRemovesOneSeparator(s: string, separator: string)
    requires separator != "" && separator != "\n"
    ensures EndsWith(s, separator) ==> Chomp(s, separator) + separator == s
    ensures !EndsWith(s, separator) ==> Chomp(s, separator) == s
  {
    if EndsWith(s, separator) {
      assert s == s[..|s| - |separator|] + s[|s| - |separator|..];
    }
  }

  /** A separator that ends the string is always chomped, the "\n" one included. */
  lemma ChompShortens(s: string, separator: string)
    ensures separator != "" && EndsWith(s, separator) ==> |Chomp(s, separator)| < |s|
  {
  }

  /** Only one delimiter goes: a doubled one leaves one behind. */
  lemma ChompLeavesInnerSeparator(s: string, separator: string)
    requires separator != "" && separator != "\n"
    ensures Chomp(s + separator + separator, separator) == s + separator
  {
    var t := s + separator + separator;
    assert t[|t| - |separator|..] == separator;
    assert t[..|t| - |separator|] == s + separator;
  }

  /** `trimmed_token_digest` is the signed string with its final delimiter cut off. */
  lemma TrimmedTokenDigestDropsDelimiter(c: Config)
    requires c.fieldDelimiter != "" && c.fieldDelimiter != "\n"
    ensures TrimmedTokenDigest(c) + c.fieldDelimiter == TokenDigest(c)
  {
    ChompRemovesOneSeparator(TokenDigest(c), c.fieldDelimiter);
  }

  /** `gsub` works piece by piece. */
  lemma {:induction false} EscapeConcat(a: string, b: string)
    ensures EscapeSlashes(a + b) == EscapeSlashes(a) + EscapeSlashes(b)
  {
    if a == [] {
      assert a + b == b;
    } else {
      assert (a + b)[0] == a[0] && (a + b)[1..] == a[1..] + b;
      EscapeConcat(a[1..], b);
    }
  }

  /** A string without '/' is left as it is. */
  lemma {:induction false} EscapeWithoutSlash(s: string)
    requires NoSlash(s)
    ensures EscapeSlashes(s) == s
  {
    if s != [] {
      EscapeWithoutSlash(s[1..]);
    }
  }

  /**
   * The token is the escaped raw token, "hmac=" and the digest, the digest being computed by
   * the HMAC over the key and the trimmed digest string; a hex digest has no '/' to escape.
   */
  lemma EncryptedTokenShape(c: Config, hmac: (seq<byte>, string) -> string)
    requires NoSlash(hmac(c.key, TrimmedTokenDigest(c)))
    ensures EncryptedToken(c, hmac) == EscapeSlashes(RawToken(c)) + "hmac=" + hmac(c.key, TrimmedTokenDigest(c))
  {
    var digest := hmac(c.key, TrimmedTokenDigest(c));
    EscapeConcat(RawToken(c) + "hmac=", digest);
    EscapeConcat(RawToken(c), "hmac=");
    EscapeWithoutSlash("hmac=");
    EscapeWithoutSlash(digest);
  }

  /** Whatever `algo` holds, the token is the same: the HMAC does not depend on it. */
  lemma EncryptedTokenIgnoresAlgo(c: Config, algo: string, hmac: (seq<byte>, string) -> string)
    ensures EncryptedToken(c.(algo := algo), hmac) == EncryptedToken(c, hmac)
  {
  }

  lemma DigitsHaveNoSlash(n: int)
    ensures NoSlash(IntToString(n))
  {
    var s := IntToString(n);
    if n < 0 {
      forall i | 1 <= i < |s| ensures s[i] != '/' {
        assert s[1..][i - 1] == s[i];
      }
    }
  }

  /** Neither acl nor url, and none of ip, session id, data and salt: what a default object holds. */
  predicate NoOptionalFields(c: Config) {
    c.acl.None? && c.url.None? && c.ip.None? && c.sessionId.None? && c.data.None? && c.salt.None?
  }

  /** Without optional fields, the raw token is start time, expiration and the wildcard acl, and it is all that is signed. */
  lemma PlainRawToken(c: Config)
    requires NoOptionalFields(c)
    ensures AclField(c) == "acl=/*" + c.fieldDelimiter
    ensures RawToken(c) == StartTimeField(c) + ExpirationField(c) + AclField(c)
    ensures TokenDigest(c) == RawToken(c)
  {
    SkipEmpty(IpField(c), StartTimeField(c), ExpirationField(c), AclField(c), SessionIdField(c), DataField(c));
    SkipEmpty("", RawToken(c), "", "", UrlField(c), SaltField(c));
  }

  lemma SkipEmpty(a: string, b: string, c: string, d: string, e: string, f: string)
    requires a == "" && e == "" && f == ""
    ensures a + b + c + d + e + f == b + c + d
  {
  }

  /** Without optional fields, the HMAC signs start time, expiration and the wildcard acl, less the final delimiter. */
  lemma PlainTrimmedTokenDigest(c: Config)
    requires NoOptionalFields(c)
    requires c.fieldDelimiter != "" && c.fieldDelimiter != "\n"
    ensures TrimmedTokenDigest(c) == StartTimeField(c) + ExpirationField(c) + "acl=/*"
  {
    PlainRawToken(c);
    TrimmedTokenDigestDropsDelimiter(c);
    var prefix := StartTimeField(c) + ExpirationField(c) + "acl=/*";
    assert TokenDigest(c) == prefix + c.fieldDelimiter;
    assert TrimmedTokenDigest(c) == TokenDigest(c)[..|TokenDigest(c)| - |c.fieldDelimiter|];
  }

  /** Without optional fields, and with a delimiter free of '/', only the acl's '/' is escaped. */
  lemma PlainRawTokenEscaped(c: Config)
    requires NoOptionalFields(c) && NoSlash(c.fieldDelimiter)
    ensures EscapeSlashes(RawToken(c)) == StartTimeField(c) + ExpirationField(c) + "acl=%2f*" + c.fieldDelimiter
  {
    PlainRawToken(c);
    var prefix := StartTimeField(c) + ExpirationField(c);
    TimeFieldsHaveNoSlash(c);
    NoSlashConcat(StartTimeField(c), ExpirationField(c));
    assert RawToken(c) == prefix + ("acl=/*" + c.fieldDelimiter);
    EscapeConcat(prefix, "acl=/*" + c.fieldDelimiter);
    EscapeWithoutSlash(prefix);
    EscapeConcat("acl=/*", c.fieldDelimiter);
    EscapeWithoutSlash(c.fieldDelimiter);
    AclEscaped();
  }

  lemma NoSlashConcat(a: string, b: string)
    requires NoSlash(a) && NoSlash(b)
    ensures NoSlash(a + b)
  {
  }

  /** Start time and expiration are digits, so only the delimiter could bring a '/' into them. */
  lemma TimeFieldsHaveNoSlash(c: Config)
    requires NoSlash(c.fieldDelimiter)
    ensures NoSlash(StartTimeField(c)) && NoSlash(ExpirationField(c))
  {
    DigitsHaveNoSlash(c.startTime);
    DigitsHaveNoSlash(c.startTime + c.window);
    NoSlashConcat("st=", IntToString(c.startTime));
    NoSlashConcat("st=" + IntToString(c.startTime), c.fieldDelimiter);
    NoSlashConcat("exp=", IntToString(c.startTime + c.window));
    NoSlashConcat("exp=" + IntToString(c.startTime + c.window), c.fieldDelimiter);
  }

  /**
   * Without optional fields, the token is start time, expiration, the wildcard acl with its '/'
   * escaped, then "hmac=" and the digest of the key and the signed string (a hex digest has no '/').
   */
  lemma PlainEncryptedToken(c: Config, hmac: (seq<byte>, string) -> string)
    requires NoOptionalFields(c) && NoSlash(c.fieldDelimiter)
    requires NoSlash(hmac(c.key, TrimmedTokenDigest(c)))
    ensures EncryptedToken(c, hmac) ==
      StartTimeField(c) + ExpirationField(c) + "acl=%2f*" + c.fieldDelimiter + "hmac=" + hmac(c.key, TrimmedTokenDigest(c))
  {
    EncryptedTokenShape(c, hmac);
    PlainRawTokenEscaped(c);
  }

  lemma AclEscaped()
    ensures EscapeSlashes("acl=/*") == "acl=%2f*"
  {
    assert "acl=/*" == "acl=" + "/*";
    EscapeConcat("acl=", "/*");
    EscapeWithoutSlash("acl=");
    WildcardEscaped();
    assert "acl=" + "%2f*" == "acl=%2f*";
  }

  lemma WildcardEscaped()
    ensures EscapeSlashes("/*") == "%2f*"
  {
    assert EscapeSlashes("*") == "*" by {
      EscapeWithoutSlash("*");
    }
    assert "/*"[1..] == "*";
  }
}
