/**
 * The state of an `AkamaiStreaming` object, its validating setters as functions on that state,
 * and what `initialize` makes of a parameter hash: two passes over the attribute table,
 * each calling every setter in table order.
 */
module TokenConfig {
  import opened Results
  import opened HexKey

  const MaxStartTime: int := 4294967295
  const DefaultWindow: int := 300
  const DefaultAlgo: string := "sha256"
  /** The default key, `'aabbccddeeff00112233445566778899'`, written as two halves so that the
      verifier does not evaluate the decoder on the whole literal. */
  const DefaultKeyHex: string := "aabbccddeeff0011" + "2233445566778899"
  const DefaultFieldDelimiter: string := "~"

  const InvalidStartTime: string := "Invalid start time"
  const InvalidAlgo: string := "Invalid crypto algorithm"
  const AclWithUrl: string := "Cannot set ACL with URL"
  const UrlWithAcl: string := "Cannot set URL with ACL"

  /** The messages a setter can raise: its own three, and the two of the key decoder. */
  predicate IsSetterMessage(m: string) {
    m == InvalidStartTime || m == InvalidAlgo || m == OddLengthError || m == NonHexError
    || m == AclWithUrl || m == UrlWithAcl
  }

  /** The digest names `algo=` accepts, compared case-sensitively. */
  predicate IsSupportedAlgo(algo: string) {
    algo == "md5" || algo == "sha1" || algo == "sha256"
  }

  /** The instance variables of an `AkamaiStreaming` object; `None` is Ruby's nil. */
  datatype Config = Config(
    startTime: int,
    window: int,
    algo: string,
    key: seq<byte>,
    fieldDelimiter: string,
    acl: Option<string>,
    url: Option<string>,
    ip: Option<string>,
    sessionId: Option<string>,
    data: Option<string>,
    salt: Option<string>)

  /**
   * A freshly allocated object, before `initialize` runs. Every instance variable is nil in Ruby;
   * the guards only ever read `acl` and `url` before writing them, so the others hold placeholders
   * that the first pass overwrites before any construction can succeed.
   */
  const Unset: Config := Config(0, 0, "", [], "", None, None, None, None, None, None)

  /** The hash given to `AkamaiStreaming.new`; `None` is a missing key (or, for the nullable ones, nil). */
  datatype Params = Params(
    startTime: Option<int>,
    window: Option<int>,
    algo: Option<string>,
    key: Option<string>,
    fieldDelimiter: Option<string>,
    acl: Option<string>,
    url: Option<string>,
    ip: Option<string>,
    sessionId: Option<string>,
    data: Option<string>,
    salt: Option<string>)

  const NoParams: Params := Params(None, None, None, None, None, None, None, None, None, None, None)

  /** The keys of the class's attribute table. */
  datatype Attribute = StartTime | Window | Algo | Key | FieldDelimiter | Acl | Url | Ip | SessionId | Data | Salt

  /** The attribute table in declaration order, which is the order the setters run in. */
  const AttributeTable: seq<Attribute> := [StartTime, Window, Algo, Key, FieldDelimiter, Acl, Url, Ip, SessionId, Data, Salt]

  /** The invariant the acl/url guards are there for. */
  predicate AclUrlExclusive(c: Config) {
    !(c.acl.Some? && c.url.Some?)
  }

  // The validating setters. Each either yields the new state or the message it raises.

  /** `start_time=` */
  function WithStartTime(c: Config, v: int): (r: Result<Config>)
    ensures r.Ok? <==> 0 <= v <= MaxStartTime
    ensures r.Ok? ==> r.value == c.(startTime := v)
    ensures r.Err? ==> r.msg == InvalidStartTime
  {
    if v < 0 || v > MaxStartTime then Err(InvalidStartTime) else Ok(c.(startTime := v))
  }

  /** `algo=` */
  function WithAlgo(c: Config, v: string): (r: Result<Config>)
    ensures r.Ok? <==> IsSupportedAlgo(v)
    ensures r.Ok? ==> r.value == c.(algo := v)
    ensures r.Err? ==> r.msg == InvalidAlgo
  {
    if IsSupportedAlgo(v) then Ok(c.(algo := v)) else Err(InvalidAlgo)
  }

  /** `key=`: the key is stored decoded, and a bad hex string raises the decoder's message. */
  function WithKey(c: Config, hex: string): (r: Result<Config>)
    ensures r.Ok? <==> HexToString(hex).Ok?
    ensures r.Ok? ==> r.value == c.(key := HexToString(hex).value)
    ensures r.Err? ==> r.msg == HexToString(hex).msg
  {
    var k :- HexToString(hex);
    Ok(c.(key := k))
  }

  /** `acl=`: refused whenever a url is stored, whatever the new value, nil included. */
  function WithAcl(c: Config, v: Option<string>): (r: Result<Config>)
    ensures r.Ok? <==> c.url.None?
    ensures r.Ok? ==> r.value == c.(acl := v)
    ensures r.Err? ==> r.msg == AclWithUrl
  {
    if c.url.None? then Ok(c.(acl := v)) else Err(AclWithUrl)
  }

  /** `url=`: refused whenever an acl is stored, whatever the new value, nil included. */
  function WithUrl(c: Config, v: Option<string>): (r: Result<Config>)
    ensures r.Ok? <==> c.acl.None?
    ensures r.Ok? ==> r.value == c.(url := v)
    ensures r.Err? ==> r.msg == UrlWithAcl
  {
    if c.acl.None? then Ok(c.(url := v)) else Err(UrlWithAcl)
  }

  /**
   * `send "#{attribute}=", params.fetch(attribute, default_value)`: one setter call of the
   * construction loop. `loadTime` is the `Time.now.to_i` taken when the class body was evaluated.
   */
  function Setter(c: Config, a: Attribute, p: Params, loadTime: int): (r: Result<Config>)
    ensures r.Err? ==> a.StartTime? || a.Algo? || a.Key? || a.Acl? || a.Url?
    ensures r.Err? ==> IsSetterMessage(r.msg)
  {
    match a
    case StartTime => WithStartTime(c, p.startTime.GetOr(loadTime))
    case Window => Ok(c.(window := p.window.GetOr(DefaultWindow)))
    case Algo => WithAlgo(c, p.algo.GetOr(DefaultAlgo))
    case Key => WithKey(c, p.key.GetOr(DefaultKeyHex))
    case FieldDelimiter => Ok(c.(fieldDelimiter := p.fieldDelimiter.GetOr(DefaultFieldDelimiter)))
    case Acl => WithAcl(c, p.acl)
    case Url => WithUrl(c, p.url)
    case Ip => Ok(c.(ip := p.ip))
    case SessionId => Ok(c.(sessionId := p.sessionId))
    case Data => Ok(c.(data := p.data))
    case Salt => Ok(c.(salt := p.salt))
  }

  /** The first `n` setters of the attribute table, called in order; the first one that raises ends the run. */
  function FirstSetters(c: Config, p: Params, loadTime: int, n: nat): (r: Result<Config>)
    requires n <= |AttributeTable|
    ensures r.Err? ==> IsSetterMessage(r.msg)
  {
    if n == 0 then Ok(c)
    else
      var before :- FirstSetters(c, p, loadTime, n - 1);
      Setter(before, AttributeTable[n - 1], p, loadTime)
  }

  /** One `self.class::attributes.each` loop of `initialize`. */
  function SetterPass(c: Config, p: Params, loadTime: int): (r: Result<Config>)
    ensures r.Err? ==> IsSetterMessage(r.msg)
  {
    FirstSetters(c, p, loadTime, |AttributeTable|)
  }

  /** The body of `initialize`: the same loop twice. */
  function TwoPasses(c: Config, p: Params, loadTime: int): (r: Result<Config>)
    ensures r.Err? ==> IsSetterMessage(r.msg)
  {
    var c1 :- SetterPass(c, p, loadTime);
    SetterPass(c1, p, loadTime)
  }

  /** `AkamaiStreaming.new(params)`. */
  function Construct(p: Params, loadTime: int): (r: Result<Config>)
    ensures r.Err? ==> IsSetterMessage(r.msg)
  {
    TwoPasses(Unset, p, loadTime)
  }

  /** Once a setter has raised, the rest of the loop never runs: the error is the loop's. */
  lemma {:induction false} FirstSettersErrorSticks(c: Config, p: Params, loadTime: int, n: nat, m: nat)
    requires n <= m <= |AttributeTable|
    requires FirstSetters(c, p, loadTime, n).Err?
    ensures FirstSetters(c, p, loadTime, m) == FirstSetters(c, p, loadTime, n)
  {
    if n < m {
      FirstSettersErrorSticks(c, p, loadTime, n, m - 1);
    }
  }

  /** Every setter keeps acl and url from both being set. */
  lemma SetterKeepsExclusive(c: Config, a: Attribute, p: Params, loadTime: int)
    requires AclUrlExclusive(c)
    ensures Setter(c, a, p, loadTime).Ok? ==> AclUrlExclusive(Setter(c, a, p, loadTime).value)
  {
  }

  /** So does any run of setters, and hence each pass and the whole construction. */
  lemma {:induction false} FirstSettersKeepExclusive(c: Config, p: Params, loadTime: int, n: nat)
    requires n <= |AttributeTable|
    requires AclUrlExclusive(c)
    ensures FirstSetters(c, p, loadTime, n).Ok? ==> AclUrlExclusive(FirstSetters(c, p, loadTime, n).value)
  {
    if n > 0 {
      FirstSettersKeepExclusive(c, p, loadTime, n - 1);
      var before := FirstSetters(c, p, loadTime, n - 1);
      if before.Ok? {
        SetterKeepsExclusive(before.value, AttributeTable[n - 1], p, loadTime);
      }
    }
  }

  // What the attribute values come to once the defaults are filled in.

  function StartTimeParam(p: Params, loadTime: int): (r: int) { p.startTime.GetOr(loadTime) }
  function AlgoParam(p: Params): (r: string) { p.algo.GetOr(DefaultAlgo) }
  function KeyParam(p: Params): (r: string) { p.key.GetOr(DefaultKeyHex) }

  /** The state a successful pass leaves, from the parameters alone. */
  function Assigned(p: Params, loadTime: int, key: seq<byte>): (r: Config) {
    Config(StartTimeParam(p, loadTime), p.window.GetOr(DefaultWindow), AlgoParam(p), key,
           p.fieldDelimiter.GetOr(DefaultFieldDelimiter), p.acl, p.url, p.ip, p.sessionId, p.data, p.salt)
  }

  /**
   * Reference definition of one pass, read off the table order: the first failing check in
   * start_time, algo, key, acl (against the url already stored), url (against the acl this
   * pass just stored) decides the message.
   */
  function ExpectedPass(c: Config, p: Params, loadTime: int): (r: Result<Config>) {
    if !(0 <= StartTimeParam(p, loadTime) <= MaxStartTime) then Err(InvalidStartTime)
    else if !IsSupportedAlgo(AlgoParam(p)) then Err(InvalidAlgo)
    else if HexToString(KeyParam(p)).Err? then Err(HexToString(KeyParam(p)).msg)
    else if c.url.Some? then Err(AclWithUrl)
    else if p.acl.Some? then Err(UrlWithAcl)
    else Ok(Assigned(p, loadTime, HexToString(KeyParam(p)).value))
  }

  /** One more setter of the table, by the definition of the loop. */
  lemma FirstSettersStep(c: Config, p: Params, loadTime: int, n: nat, before: Config)
    requires 0 < n <= |AttributeTable|
    requires FirstSetters(c, p, loadTime, n - 1) == Ok(before)
    ensures FirstSetters(c, p, loadTime, n) == Setter(before, AttributeTable[n - 1], p, loadTime)
  {
  }

  /** The first three setters: start_time, window, algo. */
  lemma LeadingSetters(c: Config, p: Params, loadTime: int)
    ensures !(0 <= StartTimeParam(p, loadTime) <= MaxStartTime) ==> FirstSetters(c, p, loadTime, 3) == Err(InvalidStartTime)
    ensures 0 <= StartTimeParam(p, loadTime) <= MaxStartTime && !IsSupportedAlgo(AlgoParam(p)) ==>
      FirstSetters(c, p, loadTime, 3) == Err(InvalidAlgo)
    ensures 0 <= StartTimeParam(p, loadTime) <= MaxStartTime && IsSupportedAlgo(AlgoParam(p)) ==>
      FirstSetters(c, p, loadTime, 3) == Ok(c.(startTime := StartTimeParam(p, loadTime),
        window := p.window.GetOr(DefaultWindow), algo := AlgoParam(p)))
  {
    var c1 := c.(startTime := StartTimeParam(p, loadTime));
    FirstSettersStep(c, p, loadTime, 1, c);
    if !(0 <= StartTimeParam(p, loadTime) <= MaxStartTime) {
      FirstSettersErrorSticks(c, p, loadTime, 1, 3);
      return;
    }
    FirstSettersStep(c, p, loadTime, 2, c1);
    FirstSettersStep(c, p, loadTime, 3, c1.(window := p.window.GetOr(DefaultWindow)));
  }

  /** The first five setters: start_time, window, algo, key, field_delimiter. */
  lemma ScalarSetters(c: Config, p: Params, loadTime: int)
    ensures !(0 <= StartTimeParam(p, loadTime) <= MaxStartTime) ==> SetterPass(c, p, loadTime) == Err(InvalidStartTime)
    ensures 0 <= StartTimeParam(p, loadTime) <= MaxStartTime && !IsSupportedAlgo(AlgoParam(p)) ==>
      SetterPass(c, p, loadTime) == Err(InvalidAlgo)
    ensures 0 <= StartTimeParam(p, loadTime) <= MaxStartTime && IsSupportedAlgo(AlgoParam(p)) && HexToString(KeyParam(p)).Err? ==>
      SetterPass(c, p, loadTime) == Err(HexToString(KeyParam(p)).msg)
    ensures 0 <= StartTimeParam(p, loadTime) <= MaxStartTime && IsSupportedAlgo(AlgoParam(p)) && HexToString(KeyParam(p)).Ok? ==>
      FirstSetters(c, p, loadTime, 5) == Ok(c.(startTime := StartTimeParam(p, loadTime), window := p.window.GetOr(DefaultWindow),
        algo := AlgoParam(p), key := HexToString(KeyParam(p)).value, fieldDelimiter := p.fieldDelimiter.GetOr(DefaultFieldDelimiter)))
  {
    LeadingSetters(c, p, loadTime);
    var first := FirstSetters(c, p, loadTime, 3);
    if first.Err? {
      FirstSettersErrorSticks(c, p, loadTime, 3, 11);
      return;
    }
    var k := HexToString(KeyParam(p));
    FirstSettersStep(c, p, loadTime, 4, first.value);
    if k.Err? {
      FirstSettersErrorSticks(c, p, loadTime, 4, 11);
      return;
    }
    FirstSettersStep(c, p, loadTime, 5, first.value.(key := k.value));
  }

  /** The acl and url setters, sixth and seventh in the table. */
  lemma TargetSetters(c: Config, p: Params, loadTime: int, c5: Config)
    requires FirstSetters(c, p, loadTime, 5) == Ok(c5)
    ensures c5.url.Some? ==> SetterPass(c, p, loadTime) == Err(AclWithUrl)
    ensures c5.url.None? && p.acl.Some? ==> SetterPass(c, p, loadTime) == Err(UrlWithAcl)
    ensures c5.url.None? && p.acl.None? ==> FirstSetters(c, p, loadTime, 7) == Ok(c5.(acl := p.acl, url := p.url))
  {
    FirstSettersStep(c, p, loadTime, 6, c5);
    if c5.url.Some? {
      FirstSettersErrorSticks(c, p, loadTime, 6, 11);
      return;
    }
    FirstSettersStep(c, p, loadTime, 7, c5.(acl := p.acl));
    if p.acl.Some? {
      FirstSettersErrorSticks(c, p, loadTime, 7, 11);
    }
  }

  /** The plain writers ip=, session_id=, data=, salt= end the table and cannot raise. */
  lemma TrailingSetters(c: Config, p: Params, loadTime: int, c7: Config)
    requires FirstSetters(c, p, loadTime, 7) == Ok(c7)
    ensures SetterPass(c, p, loadTime) == Ok(c7.(ip := p.ip, sessionId := p.sessionId, data := p.data, salt := p.salt))
  {
    FirstSettersStep(c, p, loadTime, 8, c7);
    FirstSettersStep(c, p, loadTime, 9, c7.(ip := p.ip));
    FirstSettersStep(c, p, loadTime, 10, c7.(ip := p.ip, sessionId := p.sessionId));
    FirstSettersStep(c, p, loadTime, 11, c7.(ip := p.ip, sessionId := p.sessionId, data := p.data));
  }

  /** A pass over the attribute table does what the reference definition says. */
  lemma SetterPassCharacterised(c: Config, p: Params, loadTime: int)
    ensures SetterPass(c, p, loadTime) == ExpectedPass(c, p, loadTime)
  {
    ScalarSetters(c, p, loadTime);
    var k := HexToString(KeyParam(p));
    if 0 <= StartTimeParam(p, loadTime) <= MaxStartTime && IsSupportedAlgo(AlgoParam(p)) && k.Ok? {
      var c5 := FirstSetters(c, p, loadTime, 5).value;
      TargetSetters(c, p, loadTime, c5);
      if c5.url.None? && p.acl.None? {
        TrailingSetters(c, p, loadTime, c5.(acl := p.acl, url := p.url));
      }
    }
  }

  /**
   * What `AkamaiStreaming.new(params)` does, from the parameters alone. Because `acl=` and
   * `url=` check the other field without regard to nil, an `acl` parameter makes the first
   * pass's `url=` raise, and a `url` parameter makes the second pass's `acl=` raise.
   */
  lemma ConstructCharacterised(p: Params, loadTime: int)
    ensures Construct(p, loadTime) ==
      if !(0 <= StartTimeParam(p, loadTime) <= MaxStartTime) then Err(InvalidStartTime)
      else if !IsSupportedAlgo(AlgoParam(p)) then Err(InvalidAlgo)
      else if HexToString(KeyParam(p)).Err? then Err(HexToString(KeyParam(p)).msg)
      else if p.acl.Some? then Err(UrlWithAcl)
      else if p.url.Some? then Err(AclWithUrl)
      else Ok(Assigned(p, loadTime, HexToString(KeyParam(p)).value))
  {
    SetterPassCharacterised(Unset, p, loadTime);
    match SetterPass(Unset, p, loadTime)
    case Err(_) =>
    case Ok(c1) => SetterPassCharacterised(c1, p, loadTime);
  }

  /** Construction succeeds exactly when the scalars are valid and neither acl nor url is given. */
  lemma ConstructSucceedsIff(p: Params, loadTime: int)
    ensures Construct(p, loadTime).Ok? <==>
      0 <= StartTimeParam(p, loadTime) <= MaxStartTime && IsSupportedAlgo(AlgoParam(p)) &&
      HexToString(KeyParam(p)).Ok? && p.acl.None? && p.url.None?
    ensures Construct(p, loadTime).Ok? ==>
      Construct(p, loadTime).value.acl.None? && Construct(p, loadTime).value.url.None?
  {
    ConstructCharacterised(p, loadTime);
  }

  /** The default key decodes to the sixteen bytes whose lower-case hex it is. */
  lemma DefaultKeyDecodes()
    ensures HexToString(DefaultKeyHex).Ok?
    ensures |HexToString(DefaultKeyHex).value| == 16
    ensures HexEncode(HexToString(DefaultKeyHex).value) == DefaultKeyHex
  {
    var high, low := "aabbccddeeff0011", "2233445566778899";
    assert AllLowerHexDigits(high);
    assert AllLowerHexDigits(low);
    assert DefaultKeyHex == high + low;
    assert forall i :: 0 <= i < |DefaultKeyHex| ==> IsLowerHexDigit(DefaultKeyHex[i]) by {
      forall i | 0 <= i < |DefaultKeyHex| ensures IsLowerHexDigit(DefaultKeyHex[i]) {
        if i < 16 { assert DefaultKeyHex[i] == high[i]; } else { assert DefaultKeyHex[i] == low[i - 16]; }
      }
    }
    DecodeLowerHex(DefaultKeyHex);
  }

  /** The defaults of the attribute table, with the clock reading as start time. */
  function DefaultConfig(loadTime: int, key: seq<byte>): (r: Config) {
    Config(loadTime, DefaultWindow, DefaultAlgo, key, DefaultFieldDelimiter, None, None, None, None, None, None)
  }

  /** `AkamaiStreaming.new` with no parameters succeeds and holds the defaults. */
  lemma DefaultConstruction(loadTime: int)
    requires 0 <= loadTime <= MaxStartTime
    ensures HexToString(DefaultKeyHex).Ok?
    ensures Construct(NoParams, loadTime) == Ok(DefaultConfig(loadTime, HexToString(DefaultKeyHex).value))
  {
    DefaultKeyDecodes();
    ConstructCharacterised(NoParams, loadTime);
  }

  /** Giving `acl` makes construction raise on the first pass's `url=`, once the scalars are valid. */
  lemma ConstructWithAclRaises(p: Params, loadTime: int)
    requires 0 <= StartTimeParam(p, loadTime) <= MaxStartTime && IsSupportedAlgo(AlgoParam(p))
    requires HexToString(KeyParam(p)).Ok?
    requires p.acl.Some?
    ensures Construct(p, loadTime) == Err(UrlWithAcl)
  {
    ConstructCharacterised(p, loadTime);
  }

  /** Giving only `url` makes construction raise on the second pass's `acl=`. */
  lemma ConstructWithUrlRaises(p: Params, loadTime: int)
    requires 0 <= StartTimeParam(p, loadTime) <= MaxStartTime && IsSupportedAlgo(AlgoParam(p))
    requires HexToString(KeyParam(p)).Ok?
    requires p.acl.None? && p.url.Some?
    ensures Construct(p, loadTime) == Err(AclWithUrl)
  {
    ConstructCharacterised(p, loadTime);
  }
}
