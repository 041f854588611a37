# akamai-streaming in Dafny

A model of `AkamaiStreaming`, the one class of the akamai-streaming Ruby library. The class builds an
Akamai streaming access token. An object holds a start time, a window, a digest name, a key decoded
from hex, a field delimiter, and the optional fields acl, url, ip, session id, data and salt.
Setters guard some of these and raise fixed messages. The token is assembled from
`<wire>=<value><delimiter>` fields in a fixed order. It is signed with HMAC-SHA256 over the fields
with the last delimiter chomped, and every `/` in it is escaped as `%2f`.

Modules, one per file:

- `Results` (results.dfy): Ruby's nil as `Option`; a raising call as `Result` (the message is the
  `RuntimeError`'s); a setter call's outcome as `Outcome`.
- `HexKey` (hex.dfy): `hex_to_string`. It strips `\s` whitespace, refuses an odd length, then
  refuses non-hex characters, then packs digit pairs high nibble first. Its inverse `HexEncode` is
  `unpack('H*')`.
- `Decimal` (decimal.dfy): `Integer#to_s`, which string interpolation applies to the start time and
  the expiry, with a reference parser as its inverse.
- `TokenConfig` (config.dfy): an object's instance variables as a `Config` value. Also the setters as
  functions on it, the attribute table, and what `initialize` does with a parameter hash: two passes
  over the table, each calling every setter in table order. `ExpectedPass` is an independent,
  closed-form reading of one pass; `Construct` is characterised by it.
- `Render` (render.dfy): the field renderers, `raw_token`, `token_digest`, Ruby's `chomp` and
  `trimmed_token_digest`, `gsub('/', '%2f')`, and `encrypted_token`.
- `Streaming` (streaming.dfy): the class `AkamaiStreaming`, with one mutable field per instance
  variable. It has one method per setter, each proved to do exactly what the pure setter says. The
  `send` dispatch, the loop over the attribute table (proved against the pure pass) and
  `initialize` are methods too; `New` is `AkamaiStreaming.new`.
- `Scenarios` (scenarios.dfy): the behaviours of the RSpec suite, run on objects built by `New`
  and changed through their setters.

The HMAC is a parameter `hmac: (seq<byte>, string) -> string` of `EncryptedToken`. It stands for
`OpenSSL::HMAC.hexdigest('sha256', key, message)`. The suite's stub is `Scenarios.StubHmac`.
The default start time `Time.now.to_i` is read once, when the class body is evaluated
(akamai_streaming.rb:6). It is the parameter `loadTime`.

Behaviour of the code worth knowing, all of it modelled as written:

- **Construction with acl or url always raises.** This holds even when the other one is nil. The
  guards in `acl=` and `url=` test only the stored value, whatever the new value is
  (akamai_streaming.rb:70-84), and `initialize` runs the setter loop twice
  (akamai_streaming.rb:40-48):
  - with `acl`, the first pass's `url=` (even with nil) raises 'Cannot set URL with ACL';
  - with only `url`, the second pass's `acl=` raises 'Cannot set ACL with URL'.

  `TokenConfig.ConstructCharacterised` proves the full outcome;
  `TokenConfig.ConstructWithAclRaises` and `TokenConfig.ConstructWithUrlRaises` state the two cases.
- **`st=` is always rendered**, because an Integer is truthy in Ruby (akamai_streaming.rb:22, 31-33).
- **The hex errors are the code's exact strings** (akamai_streaming.rb:117-120).
- **The delimiter can be any string.** `chomp` with "\n" or "" has Ruby's special meanings; both
  are modelled.
- **Construction succeeds exactly when** the start time, algo and key are valid and neither acl nor
  url is given (`TokenConfig.ConstructSucceedsIff`).

## Model

| member | source | states |
|---|---|---|
| HexKey.StripWhitespace | akamai_streaming.rb:116 | the result is no longer than the input and holds no `\s` character |
| HexKey.StripConcat | akamai_streaming.rb:116 | stripping works piece by piece: strip(a + b) = strip(a) + strip(b) |
| HexKey.StripWithoutSpaces | akamai_streaming.rb:116 | a string without whitespace is left unchanged |
| HexKey.StripAllSpace | akamai_streaming.rb:116 | a run of whitespace strips to nothing |
| HexKey.PackHex | akamai_streaming.rb:121 | `pack('H*')`: half as many bytes as digits; byte k is 16 × digit 2k + digit 2k+1 (high nibble first) |
| HexKey.HexToString | akamai_streaming.rb:115-127 | raises the even-digits message iff the stripped length is odd; raises the non-hex message iff it is even and some character is outside [0-9A-Fa-f]; otherwise succeeds with half as many bytes, which re-encode to the stripped input in lower case |
| HexKey.HexEncode | akamai_streaming.rb:121 | the inverse encoding: two hex digits per byte |
| HexKey.HexEncodeConcat | akamai_streaming.rb:121 | encoding works byte by byte |
| HexKey.PackEncode | akamai_streaming.rb:121 | packing an encoding gives the bytes back |
| HexKey.EncodePack | akamai_streaming.rb:121 | encoding a packing gives the digits back in lower case |
| HexKey.HexToStringEncode | akamai_streaming.rb:115-127 | every byte string survives encode-then-decode |
| HexKey.DecodeCleanHex | akamai_streaming.rb:115-127 | an even, whitespace-free run of hex digits decodes, to half as many bytes |
| HexKey.DecodeLowerHex | akamai_streaming.rb:115-127 | an even run of lower-case hex digits decodes and re-encodes to itself |
| HexKey.HexToStringIgnoresSpace | akamai_streaming.rb:116 | whitespace inserted anywhere in a key does not change the decoding or the error |
| HexKey.HexToStringCaseInsensitive | akamai_streaming.rb:120-121 | upper- and lower-case digits decode alike, errors included |
| HexKey.PackToLower | akamai_streaming.rb:121 | folding digits to lower case does not change the packed bytes |
| HexKey.StripToLower | akamai_streaming.rb:116 | stripping and case folding commute |
| Decimal.NatToString | akamai_streaming.rb:87 | non-empty, all digits, no leading zero, one digit exactly below 10 |
| Decimal.IntToString | akamai_streaming.rb:87 | a leading '-' exactly for negative numbers, digits after it |
| Decimal.NatToStringRoundTrip | akamai_streaming.rb:87 | the digits read back as the number |
| Decimal.IntToStringRoundTrip | akamai_streaming.rb:87 | the text reads back as the integer, sign included |
| Decimal.IntToStringInjective | akamai_streaming.rb:87 | distinct integers render differently |
| TokenConfig.WithStartTime | akamai_streaming.rb:50-56 | succeeds iff 0 ≤ v ≤ 4294967295 and then stores v; otherwise raises 'Invalid start time' |
| TokenConfig.WithAlgo | akamai_streaming.rb:62-68 | succeeds iff v is exactly "md5", "sha1" or "sha256" and then stores it; otherwise raises 'Invalid crypto algorithm' |
| TokenConfig.WithKey | akamai_streaming.rb:58-60 | succeeds iff the hex decodes and then stores the bytes; otherwise raises the decoder's message |
| TokenConfig.WithAcl | akamai_streaming.rb:70-76 | succeeds iff url is nil, whatever the new value (nil included), and then stores it; otherwise raises 'Cannot set ACL with URL' |
| TokenConfig.WithUrl | akamai_streaming.rb:78-84 | succeeds iff acl is nil, whatever the new value, and then stores it; otherwise raises 'Cannot set URL with ACL' |
| TokenConfig.Setter | akamai_streaming.rb:42 | one `send "#{attribute}="`: only start_time=, algo=, key=, acl= and url= can raise, and only with one of their six messages; `SetterKeepsExclusive` proves the acl/url invariant |
| TokenConfig.FirstSetters | akamai_streaming.rb:41-43 | the first n setters of the table in order, stopping at the first raise: a raise carries one of the six setter messages (by induction over n); `FirstSettersErrorSticks` and `FirstSettersKeepExclusive` state the rest |
| TokenConfig.SetterPass | akamai_streaming.rb:41-43 | one `attributes.each` loop: raises only setter messages; `SetterPassCharacterised` gives its closed form |
| TokenConfig.TwoPasses | akamai_streaming.rb:40-48 | the body of `initialize`: the loop twice, the second skipped after a raise; raises only setter messages |
| TokenConfig.Construct | akamai_streaming.rb:40-48 | `new(params)` from the unset object: raises only setter messages; `ConstructCharacterised` and `ConstructSucceedsIff` give the full outcome |
| TokenConfig.FirstSettersErrorSticks | akamai_streaming.rb:41-43 | once a setter raises, the rest of the loop does not run: the loop's error is that setter's |
| TokenConfig.SetterKeepsExclusive | akamai_streaming.rb:70-84 | every setter preserves "not both acl and url" |
| TokenConfig.FirstSettersKeepExclusive | akamai_streaming.rb:41-43 | so does any run of the loop |
| TokenConfig.LeadingSetters | akamai_streaming.rb:41-43 | the first three setters of the table: the start time is checked before the algo |
| TokenConfig.ScalarSetters | akamai_streaming.rb:41-43 | the first five setters: start time, then algo, then key decide the error, else all five are stored |
| TokenConfig.TargetSetters | akamai_streaming.rb:41-43 | acl= then url=: a stored url makes acl= raise; a given acl makes the following url= raise |
| TokenConfig.TrailingSetters | akamai_streaming.rb:41-43 | the last four setters store ip, session id, data and salt and never raise |
| TokenConfig.SetterPassCharacterised | akamai_streaming.rb:41-43 | one pass equals the reference `ExpectedPass`: the first failing check in table order decides the message, else the state is the parameters with defaults |
| TokenConfig.ConstructCharacterised | akamai_streaming.rb:40-48 | `new(params)`: start time, algo and key are checked first; then a given acl raises 'Cannot set URL with ACL', then a given url raises 'Cannot set ACL with URL'; otherwise the state is the parameters with the defaults filled in |
| TokenConfig.ConstructSucceedsIff | akamai_streaming.rb:40-48 | construction succeeds iff start time, algo and key are valid and neither acl nor url is given, and then neither is stored |
| TokenConfig.DefaultKeyDecodes | akamai_streaming.rb:9 | the default key decodes to 16 bytes whose hex is the default key |
| TokenConfig.DefaultConstruction | akamai_streaming.rb:5-19 | `new` with no parameters succeeds with the table's defaults and the load-time clock as start time |
| TokenConfig.ConstructWithAclRaises | akamai_streaming.rb:78-84 | giving acl makes construction raise 'Cannot set URL with ACL' |
| TokenConfig.ConstructWithUrlRaises | akamai_streaming.rb:70-76 | giving only url makes construction raise 'Cannot set ACL with URL' |
| Render.Field | akamai_streaming.rb:30-34 | a generated `<field>_field`: "" for nil; otherwise starts with the wire name and "=", and ends with the delimiter |
| Render.StartTimeField | akamai_streaming.rb:30-34 | always present: starts "st=" and ends with the delimiter; `StartTimeFieldText` and `StartTimeFieldReadsBack` give its text |
| Render.UrlField | akamai_streaming.rb:30-34 | "" exactly when url is nil; otherwise starts "url=" and ends with the delimiter |
| Render.IpField | akamai_streaming.rb:30-34 | "" exactly when ip is nil; otherwise starts "ip=" and ends with the delimiter |
| Render.SessionIdField | akamai_streaming.rb:30-34 | "" exactly when session id is nil; otherwise starts "id=" and ends with the delimiter |
| Render.DataField | akamai_streaming.rb:30-34 | "" exactly when data is nil; otherwise starts "data=" and ends with the delimiter |
| Render.SaltField | akamai_streaming.rb:30-34 | "" exactly when salt is nil; otherwise starts "salt=" and ends with the delimiter |
| Render.ExpirationField | akamai_streaming.rb:86-88 | always present: starts "exp=" and ends with the delimiter; `ExpirationFieldReadsBack` gives its value |
| Render.AclField | akamai_streaming.rb:90-96 | always present: starts "acl=" and ends with the delimiter; `AclFieldCases` gives its three branches |
| Render.RawToken | akamai_streaming.rb:98-100 | `raw_token` always ends with the delimiter, because `acl_field` is never empty; `PlainRawToken` gives it without optional fields |
| Render.TokenDigest | akamai_streaming.rb:102-104 | `token_digest` always ends with the delimiter; `TokenDigestExtendsRawToken` shows `raw_token` as its prefix |
| Render.OptionalFields | akamai_streaming.rb:21-34 | a nil field renders as ""; a set one as wire name, "=", value and delimiter, under the wire names ip, id, data, salt and url |
| Render.StartTimeFieldText | akamai_streaming.rb:22 | the start time always renders as "st=", its decimal text and the delimiter |
| Render.StartTimeFieldReadsBack | akamai_streaming.rb:22 | the `st=` field reads back as the start time |
| Render.ExpirationFieldReadsBack | akamai_streaming.rb:86-88 | the `exp=` field reads back as start time plus window |
| Render.FieldExamples | spec/akamai_streaming_spec.rb:70-79 | start time 123 and window 10 render "st=123~" and "exp=133~" |
| Render.AclFieldCases | akamai_streaming.rb:90-96 | wildcard only when neither acl nor url is set; "acl=" + delimiter with url set and acl nil; the acl otherwise |
| Render.TokenDigestExtendsRawToken | akamai_streaming.rb:102-104 | `raw_token` is a prefix of `token_digest`, and all of it without url and salt |
| Render.Chomp | akamai_streaming.rb:107 | `chomp` only ever removes a suffix |
| Render.TrimmedTokenDigest | akamai_streaming.rb:106-108 | `trimmed_token_digest` is a prefix of `token_digest`, strictly shorter for any non-empty delimiter, because the final delimiter is always chomped; `TrimmedTokenDigestDropsDelimiter` gives the exact cut |
| Render.ChompRemovesOneSeparator | akamai_streaming.rb:107 | for a separator other than "" and "\n": one trailing occurrence is removed, and nothing else changes |
| Render.ChompLeavesInnerSeparator | akamai_streaming.rb:107 | of two trailing separators, only one is removed |
| Render.TrimmedTokenDigestDropsDelimiter | akamai_streaming.rb:106-108 | the signed string plus the delimiter is `token_digest` |
| Render.EscapeSlashes | akamai_streaming.rb:112 | the result has no '/' |
| Render.EscapeConcat | akamai_streaming.rb:112 | the escaping works piece by piece |
| Render.EscapeWithoutSlash | akamai_streaming.rb:112 | a string without '/' is unchanged |
| Render.EncryptedToken | akamai_streaming.rb:110-113 | `encrypted_token` contains no '/', whatever the HMAC returns |
| Render.EncryptedTokenShape | akamai_streaming.rb:110-113 | with a digest that has no '/', the token is the escaped raw token, "hmac=" and the HMAC of the key over the trimmed digest |
| Render.EncryptedTokenIgnoresAlgo | akamai_streaming.rb:111 | the token does not depend on `algo` |
| Render.PlainRawToken | spec/akamai_streaming_spec.rb:28-34 | without optional fields: the acl is the wildcard; `raw_token` is st + exp + acl; `token_digest` equals it |
| Render.PlainTrimmedTokenDigest | spec/akamai_streaming_spec.rb:36-38 | without optional fields, the signed string is st + exp + "acl=/*" |
| Render.PlainRawTokenEscaped | akamai_streaming.rb:112 | without optional fields and with a '/'-free delimiter, only the wildcard's '/' is escaped |
| Render.PlainEncryptedToken | spec/akamai_streaming_spec.rb:40-43 | without optional fields: st + exp + "acl=%2f*" + delimiter + "hmac=" + digest |
| Streaming.AkamaiStreaming.Allocate | akamai_streaming.rb:40 | an object before `initialize`: acl and url nil |
| Streaming.AkamaiStreaming.SetStartTime | akamai_streaming.rb:50-56 | does what `WithStartTime` says; on a raise the object is unchanged |
| Streaming.AkamaiStreaming.SetWindow | akamai_streaming.rb:19 | stores the window, nothing else changes |
| Streaming.AkamaiStreaming.SetAlgo | akamai_streaming.rb:62-68 | does what `WithAlgo` says; on a raise the object is unchanged |
| Streaming.AkamaiStreaming.SetKey | akamai_streaming.rb:58-60 | does what `WithKey` says; on a raise the object is unchanged |
| Streaming.AkamaiStreaming.SetFieldDelimiter | akamai_streaming.rb:19 | stores the delimiter, nothing else changes |
| Streaming.AkamaiStreaming.SetAcl | akamai_streaming.rb:70-76 | does what `WithAcl` says, keeps acl/url exclusive; on a raise the object is unchanged |
| Streaming.AkamaiStreaming.SetUrl | akamai_streaming.rb:78-84 | does what `WithUrl` says, keeps acl/url exclusive; on a raise the object is unchanged |
| Streaming.AkamaiStreaming.SetIp | akamai_streaming.rb:19 | stores the ip, nothing else changes |
| Streaming.AkamaiStreaming.SetSessionId | akamai_streaming.rb:19 | stores the session id, nothing else changes |
| Streaming.AkamaiStreaming.SetData | akamai_streaming.rb:19 | stores the data, nothing else changes |
| Streaming.AkamaiStreaming.SetSalt | akamai_streaming.rb:19 | stores the salt, nothing else changes |
| Streaming.AkamaiStreaming.CallSetter | akamai_streaming.rb:42 | `send` of one attribute's setter with the parameter or its default: does what `Setter` says, keeps acl/url exclusive |
| Streaming.AkamaiStreaming.RunSetterPass | akamai_streaming.rb:41-43 | the loop ends as `SetterPass` says: the new state, or the first setter's message |
| Streaming.AkamaiStreaming.Initialize | akamai_streaming.rb:40-48 | both loops end as `TwoPasses` says |
| Streaming.New | akamai_streaming.rb:40-48 | a fresh object whose state is `Construct`'s, or `Construct`'s message |
| Scenarios.NewDefault | spec/akamai_streaming_spec.rb:5 | `AkamaiStreaming.new` holds the defaults and the default key |
| Scenarios.Defaults | spec/akamai_streaming_spec.rb:7-18 | window 300, algo "sha256", delimiter "~", the load time as start time, no acl, no url |
| Scenarios.StubbedPlainToken | spec/akamai_streaming_spec.rb:40-43 | signed by the stub, a token without optional fields ends "acl=%2f*~hmac=test_hmac_value" |
| Scenarios.DefaultToken | spec/akamai_streaming_spec.rb:28-43 | default raw token, signed string, trimmed string and stubbed token, spelled out |
| Scenarios.UnsupportedAlgo | spec/akamai_streaming_spec.rb:46-49 | `algo = 'sha128'` raises 'Invalid crypto algorithm' and the algo stays "sha256" |
| Scenarios.AclAfterUrl | spec/akamai_streaming_spec.rb:51-55 | url is accepted, then acl raises 'Cannot set ACL with URL' |
| Scenarios.UrlAfterAcl | spec/akamai_streaming_spec.rb:57-60 | acl is accepted, then url raises 'Cannot set URL with ACL' |
| Scenarios.StartTimeBounds | spec/akamai_streaming_spec.rb:62-68 | -1 and 4294967296 raise 'Invalid start time' and the start time stays |
| Scenarios.TimeFields | spec/akamai_streaming_spec.rb:70-79 | "st=123~" and "exp=133~" |
| Scenarios.AclFieldRendering | spec/akamai_streaming_spec.rb:81-84 | "acl=/*~" |
| Scenarios.UrlFieldRendering | spec/akamai_streaming_spec.rb:86-89 | "url=http://example.com~" |
| Scenarios.OptionalFieldRendering | spec/akamai_streaming_spec.rb:91-109 | "ip=0.0.0.0~", "id=session_id~", "data=data~", "salt=salt~" |

## Left out

- HMAC-SHA256 (`OpenSSL::HMAC.hexdigest`, RFC 2104 over SHA-256) is a foreign cryptographic call. It is a function parameter; properties that need its output to be free of '/' (a hex digest always is) take that as a precondition.
- The clock: `Time.now.to_i` is the parameter `loadTime`. The scenarios assume it is a valid start time, which holds for any clock before 2106.
- Ruby metaprogramming (`attr_accessor`, `define_method`, `send`) is written out as fields, functions and a dispatch method. The accidental `expiration_field_field` reader that `define_method` generates is not modelled.
- The stored-only flags `early_url_encoding` and `debug`, and the unused `require 'base64'`, are not modelled.
- The `RUBY_VERSION`/`force_encoding` branch only sets an encoding tag on the same bytes; bytes are `seq<byte>` with no tag.
- Parameter values of the wrong Ruby type are not modelled: nil or a non-integer start time or window, a non-string algo, key or delimiter, or non-string optional fields. Every `Params` field has its documented type, and nil is modelled only for the nullable ones.
- Unknown keys in the parameter hash are ignored by the code, and `Params` has no place for them.
- `TokenConfig.Unset`: before `initialize`, Ruby's instance variables are all nil. Only `@acl` and `@url` are read before they are written, so the others hold placeholders that the first pass overwrites.
- Streaming.AkamaiStreaming.RunSetterPass: on a raise, the contract gives the message but not the partly updated state. That object is never returned, because the raise propagates out of `new`.
- Streaming.AkamaiStreaming.Initialize: the same holds on a raise.
- Multi-byte encodings and character-boundary checks in `chomp` are not modelled; strings are sequences of characters.
- The RSpec `shared_examples` block (spec/akamai_streaming_spec.rb:117-125) uses an undefined `params` and is not modelled.
