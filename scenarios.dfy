/**
 * The behaviours the RSpec suite of `AkamaiStreaming` describes, each run on objects built by
 * `New` and changed through their setters. `loadTime` is the clock reading taken when the class
 * loaded, which is the default start time; it is a valid start time for any clock before 2106.
 */
module Scenarios {
  import opened Results
  import opened HexKey
  import opened Decimal
  import opened TokenConfig
  import opened Render
  import opened Streaming

  /** `AkamaiStreaming.new` with no parameters. */
  method NewDefault(loadTime: int) returns (s: AkamaiStreaming)
    requires 0 <= loadTime <= MaxStartTime
    ensures fresh(s) && s.State() == DefaultConfig(loadTime, s.key)
    ensures HexEncode(s.key) == DefaultKeyHex
  {
    DefaultConstruction(loadTime);
    DefaultKeyDecodes();
    var r := New(NoParams, loadTime);
    s := r.value;
  }

  /** A default object has window 300, algo "sha256", delimiter "~", the load time as start time, and neither acl nor url. */
  method Defaults(loadTime: int) returns (startTime: int, window: int, algo: string, delimiter: string, hasAcl: bool, hasUrl: bool)
    requires 0 <= loadTime <= MaxStartTime
    ensures startTime == loadTime && window == 300 && algo == "sha256" && delimiter == "~"
    ensures !hasAcl && !hasUrl
  {
    var s := NewDefault(loadTime);
    startTime, window, algo, delimiter := s.startTime, s.window, s.algo, s.fieldDelimiter;
    hasAcl, hasUrl := s.acl.Some?, s.url.Some?;
  }

  /** The suite's stand-in for `OpenSSL::HMAC.hexdigest`. */
  function StubHmac(key: seq<byte>, message: string): (r: string) {
    "test_hmac_value"
  }

  lemma StubHmacHasNoSlash(key: seq<byte>, message: string)
    ensures NoSlash(StubHmac(key, message))
  {
    var h := StubHmac(key, message);
    assert h == "test_hmac_value";
    forall i | 0 <= i < |h| ensures h[i] != '/' {
    }
  }

  /** A token without optional fields, delimited by "~" and signed by the stub. */
  lemma StubbedPlainToken(c: Config)
    requires NoOptionalFields(c) && c.fieldDelimiter == "~"
    ensures EncryptedToken(c, StubHmac) == StartTimeField(c) + ExpirationField(c) + "acl=%2f*~" + "hmac=" + "test_hmac_value"
  {
    var prefix := StartTimeField(c) + ExpirationField(c);
    var h := StubHmac(c.key, TrimmedTokenDigest(c));
    StubHmacHasNoSlash(c.key, TrimmedTokenDigest(c));
    assert NoSlash(c.fieldDelimiter);
    PlainEncryptedToken(c, StubHmac);
    assert EncryptedToken(c, StubHmac) == prefix + "acl=%2f*" + "~" + "hmac=" + h;
    Regroup(prefix, "acl=%2f*", "~", "hmac=", h);
    assert "acl=%2f*" + "~" == "acl=%2f*~";
    assert h == "test_hmac_value";
  }

  /** The time fields of a default object, whose window is 300 and whose delimiter is "~". */
  lemma DefaultFieldTexts(c: Config, loadTime: int)
    requires c.startTime == loadTime && c.window == 300 && c.fieldDelimiter == "~"
    ensures StartTimeField(c) == "st=" + IntToString(loadTime) + "~"
    ensures ExpirationField(c) == "exp=" + IntToString(loadTime + 300) + "~"
  {
    StartTimeFieldText(c);
  }

  /** The strings signed for a token without optional fields, delimited by "~". */
  lemma StubbedPlainDigest(c: Config)
    requires NoOptionalFields(c) && c.fieldDelimiter == "~"
    ensures RawToken(c) == StartTimeField(c) + ExpirationField(c) + "acl=/*~"
    ensures TokenDigest(c) == RawToken(c)
    ensures TrimmedTokenDigest(c) == StartTimeField(c) + ExpirationField(c) + "acl=/*"
  {
    PlainRawToken(c);
    assert "acl=/*" + "~" == "acl=/*~";
    PlainTrimmedTokenDigest(c);
  }

  lemma Regroup(a: string, b: string, c: string, d: string, e: string)
    ensures a + b + c + d + e == a + (b + c) + d + e
  {
  }

  /**
   * The default tokens, with the digest stubbed as "test_hmac_value": the raw token and the signed
   * string are start time, expiration and the wildcard acl; the HMAC signs them without the last
   * "~"; the token escapes the acl's '/'.
   */
  method DefaultToken(loadTime: int) returns (startField: string, expirationField: string, raw: string, digest: string, trimmed: string, token: string)
    requires 0 <= loadTime <= MaxStartTime
    ensures startField == "st=" + IntToString(loadTime) + "~"
    ensures expirationField == "exp=" + IntToString(loadTime + 300) + "~"
    ensures raw == startField + expirationField + "acl=/*~"
    ensures digest == raw
    ensures trimmed == startField + expirationField + "acl=/*"
    ensures token == startField + expirationField + "acl=%2f*~" + "hmac=" + "test_hmac_value"
  {
    var s := NewDefault(loadTime);
    var c := s.State();
    assert c == DefaultConfig(loadTime, c.key);
    startField, expirationField := StartTimeField(c), ExpirationField(c);
    raw, digest, trimmed := RawToken(c), TokenDigest(c), TrimmedTokenDigest(c);
    token := EncryptedToken(c, StubHmac);
    DefaultFieldTexts(c, loadTime);
    StubbedPlainDigest(c);
    StubbedPlainToken(c);
  }

  /** `algo = 'sha128'` raises and leaves the default algorithm in place. */
  method UnsupportedAlgo(loadTime: int) returns (o: Outcome, algo: string)
    requires 0 <= loadTime <= MaxStartTime
    ensures o == Fail(InvalidAlgo) && algo == "sha256"
  {
    var s := NewDefault(loadTime);
    o := s.SetAlgo("sha128");
    algo := s.algo;
  }

  /** After a url is set, setting the wildcard acl raises. */
  method AclAfterUrl(loadTime: int) returns (urlSet: Outcome, aclSet: Outcome)
    requires 0 <= loadTime <= MaxStartTime
    ensures urlSet == Pass && aclSet == Fail(AclWithUrl)
  {
    var s := NewDefault(loadTime);
    urlSet := s.SetUrl(Some("http://example.com"));
    aclSet := s.SetAcl(Some("/*"));
  }

  /** After the wildcard acl is set, setting a url raises. */
  method UrlAfterAcl(loadTime: int) returns (aclSet: Outcome, urlSet: Outcome)
    requires 0 <= loadTime <= MaxStartTime
    ensures aclSet == Pass && urlSet == Fail(UrlWithAcl)
  {
    var s := NewDefault(loadTime);
    aclSet := s.SetAcl(Some("/*"));
    urlSet := s.SetUrl(Some("http://example.com"));
  }

  /** `start_time = -1` and `start_time = 4294967296` both raise, and the start time stays. */
  method StartTimeBounds(loadTime: int) returns (below: Outcome, above: Outcome, startTime: int)
    requires 0 <= loadTime <= MaxStartTime
    ensures below == Fail(InvalidStartTime) && above == Fail(InvalidStartTime)
    ensures startTime == loadTime
  {
    var s := NewDefault(loadTime);
    below := s.SetStartTime(-1);
    above := s.SetStartTime(4294967296);
    startTime := s.startTime;
  }

  /** Start time 123 with window 10 renders as "st=123~" and expires at "exp=133~". */
  method TimeFields(loadTime: int) returns (st: string, exp: string)
    requires 0 <= loadTime <= MaxStartTime
    ensures st == "st=123~" && exp == "exp=133~"
  {
    var s := NewDefault(loadTime);
    var _ := s.SetStartTime(123);
    var _ := s.SetWindow(10);
    FieldExamples(s.State());
    st, exp := StartTimeField(s.State()), ExpirationField(s.State());
  }

  /** The wildcard acl renders as itself. */
  method AclFieldRendering(loadTime: int) returns (acl: string)
    requires 0 <= loadTime <= MaxStartTime
    ensures acl == "acl=/*~"
  {
    var s := NewDefault(loadTime);
    var _ := s.SetAcl(Some("/*"));
    acl := AclField(s.State());
  }

  /** A set url renders as `url=<url>~`. */
  method UrlFieldRendering(loadTime: int) returns (url: string)
    requires 0 <= loadTime <= MaxStartTime
    ensures url == "url=http://example.com~"
  {
    var s := NewDefault(loadTime);
    var _ := s.SetUrl(Some("http://example.com"));
    url := UrlField(s.State());
  }

  /** Set ip, session id, data and salt render under their wire names "ip", "id", "data" and "salt". */
  method OptionalFieldRendering(loadTime: int) returns (ip: string, id: string, data: string, salt: string)
    requires 0 <= loadTime <= MaxStartTime
    ensures ip == "ip=0.0.0.0~" && id == "id=session_id~" && data == "data=data~" && salt == "salt=salt~"
  {
    var s := NewDefault(loadTime);
    var _ := s.SetIp(Some("0.0.0.0"));
    var _ := s.SetSessionId(Some("session_id"));
    var _ := s.SetData(Some("data"));
    var _ := s.SetSalt(Some("salt"));
    ip, id := IpField(s.State()), SessionIdField(s.State());
    data, salt := DataField(s.State()), SaltField(s.State());
  }
}
