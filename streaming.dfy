/**
 * The `AkamaiStreaming` object itself: its instance variables, the setters that update them in
 * place, the `send`-driven construction loop, and the scenarios its RSpec suite describes.
 */
module Streaming {
  import opened Results
  import opened HexKey
  import opened TokenConfig
  import opened Render

  /** A setter call on an object in state `before` did what the pure setter `r` says: on success the object holds the new state, on a raise it is untouched. */
  predicate Reflects(r: Result<Config>, o: Outcome, before: Config, after: Config) {
    match r
    case Ok(c) => o == Pass && after == c
    case Err(m) => o == Fail(m) && after == before
  }

  /** A run of setters ended as `r` says: with the state it computes, or with the message it raises. */
  predicate Reports(r: Result<Config>, o: Outcome, after: Config) {
    match r
    case Ok(c) => o == Pass && after == c
    case Err(m) => o == Fail(m)
  }

  class AkamaiStreaming {
    var startTime: int
    var window: int
    var algo: string
    var key: seq<byte>
    var fieldDelimiter: string
    var acl: Option<string>
    var url: Option<string>
    var ip: Option<string>
    var sessionId: Option<string>
    var data: Option<string>
    var salt: Option<string>

    /** The instance variables as one value, which the renderers read. */
    function State(): Config
      reads this
    {
      Config(startTime, window, algo, key, fieldDelimiter, acl, url, ip, sessionId, data, salt)
    }

    /** `allocate`: the object before `initialize` has run. */
    constructor Allocate()
      ensures State() == Unset
    {
      startTime, window, algo, key, fieldDelimiter := 0, 0, "", [], "";
      acl, url, ip, sessionId, data, salt := None, None, None, None, None, None;
    }

    /** `start_time=`: refuses values outside 0..4294967295. */
    method SetStartTime(v: int) returns (o: Outcome)
      modifies this
      ensures Reflects(WithStartTime(old(State()), v), o, old(State()), State())
    {
      if v < 0 || v > MaxStartTime {
        return Fail(InvalidStartTime);
      }
      startTime := v;
      o := Pass;
    }

    method SetWindow(v: int) returns (o: Outcome)
      modifies this
      ensures o == Pass && State() == old(State()).(window := v)
    {
      window := v;
      o := Pass;
    }

    /** `algo=`: only the three digest names are accepted. */
    method SetAlgo(v: string) returns (o: Outcome)
      modifies this
      ensures Reflects(WithAlgo(old(State()), v), o, old(State()), State())
    {
      if !IsSupportedAlgo(v) {
        return Fail(InvalidAlgo);
      }
      algo := v;
      o := Pass;
    }

    /** `key=`: stores the decoded bytes, or raises the decoder's message. */
    method SetKey(hex: string) returns (o: Outcome)
      modifies this
      ensures Reflects(WithKey(old(State()), hex), o, old(State()), State())
    {
      var decoded := HexToString(hex);
      if decoded.Err? {
        return Fail(decoded.msg);
      }
      key := decoded.value;
      o := Pass;
    }

    method SetFieldDelimiter(v: string) returns (o: Outcome)
      modifies this
      ensures o == Pass && State() == old(State()).(fieldDelimiter := v)
    {
      fieldDelimiter := v;
      o := Pass;
    }

    /** `acl=`: refused, whatever the value, once a url is stored. */
    method SetAcl(v: Option<string>) returns (o: Outcome)
      modifies this
      ensures Reflects(WithAcl(old(State()), v), o, old(State()), State())
      ensures AclUrlExclusive(old(State())) ==> AclUrlExclusive(State())
    {
      if url.Some? {
        return Fail(AclWithUrl);
      }
      acl := v;
      o := Pass;
    }

    /** `url=`: refused, whatever the value, once an acl is stored. */
    method SetUrl(v: Option<string>) returns (o: Outcome)
      modifies this
      ensures Reflects(WithUrl(old(State()), v), o, old(State()), State())
      ensures AclUrlExclusive(old(State())) ==> AclUrlExclusive(State())
    {
      if acl.Some? {
        return Fail(UrlWithAcl);
      }
      url := v;
      o := Pass;
    }

    method SetIp(v: Option<string>) returns (o: Outcome)
      modifies this
      ensures o == Pass && State() == old(State()).(ip := v)
    {
      ip := v;
      o := Pass;
    }

    method SetSessionId(v: Option<string>) returns (o: Outcome)
      modifies this
      ensures o == Pass && State() == old(State()).(sessionId := v)
    {
      sessionId := v;
      o := Pass;
    }

    method SetData(v: Option<string>) returns (o: Outcome)
      modifies this
      ensures o == Pass && State() == old(State()).(data := v)
    {
      data := v;
      o := Pass;
    }

    method SetSalt(v: Option<string>) returns (o: Outcome)
      modifies this
      ensures o == Pass && State() == old(State()).(salt := v)
    {
      salt := v;
      o := Pass;
    }

    /** `self.send "#{attribute}=", params.fetch(attribute, default_value)` */
    method CallSetter(a: Attribute, p: Params, loadTime: int) returns (o: Outcome)
      modifies this
      ensures Reflects(Setter(old(State()), a, p, loadTime), o, old(State()), State())
      ensures AclUrlExclusive(old(State())) ==> AclUrlExclusive(State())
    {
      match a
      case StartTime => o := SetStartTime(p.startTime.GetOr(loadTime));
      case Window => o := SetWindow(p.window.GetOr(DefaultWindow));
      case Algo => o := SetAlgo(p.algo.GetOr(DefaultAlgo));
      case Key => o := SetKey(p.key.GetOr(DefaultKeyHex));
      case FieldDelimiter => o := SetFieldDelimiter(p.fieldDelimiter.GetOr(DefaultFieldDelimiter));
      case Acl => o := SetAcl(p.acl);
      case Url => o := SetUrl(p.url);
      case Ip => o := SetIp(p.ip);
      case SessionId => o := SetSessionId(p.sessionId);
      case Data => o := SetData(p.data);
      case Salt => o := SetSalt(p.salt);
    }

    /** One `self.class::attributes.each` loop: every setter in table order, stopping at the first raise. */
    method RunSetterPass(p: Params, loadTime: int) returns (o: Outcome)
      modifies this
      ensures Reports(SetterPass(old(State()), p, loadTime), o, State())
    {
      ghost var start := State();
      var i := 0;
      while i < |AttributeTable|
        invariant 0 <= i <= |AttributeTable|
        invariant FirstSetters(start, p, loadTime, i) == Ok(State())
      {
        ghost var before := State();
        o := CallSetter(AttributeTable[i], p, loadTime);
        FirstSettersStep(start, p, loadTime, i + 1, before);
        if o.Fail? {
          FirstSettersErrorSticks(start, p, loadTime, i + 1, |AttributeTable|);
          return;
        }
        i := i + 1;
      }
      o := Pass;
    }

    /** `initialize(params)`: the loop, twice; a raise in the first pass skips the second. */
    method Initialize(p: Params, loadTime: int) returns (o: Outcome)
      modifies this
      ensures Reports(TwoPasses(old(State()), p, loadTime), o, State())
    {
      o := RunSetterPass(p, loadTime);
      if o.Fail? {
        return;
      }
      o := RunSetterPass(p, loadTime);
    }
  }

  /** `AkamaiStreaming.new(params)`: a fresh object, or the message `initialize` raised. */
  method New(p: Params, loadTime: int) returns (r: Result<AkamaiStreaming>)
    ensures r.Ok? ==> fresh(r.value) && Construct(p, loadTime) == Ok(r.value.State())
    ensures r.Err? ==> Construct(p, loadTime) == Err(r.msg)
  {
    var s := new AkamaiStreaming.Allocate();
    var o := s.Initialize(p, loadTime);
    if o.Fail? {
      return Err(o.msg);
    }
    r := Ok(s);
  }
}
