/** The pairing link carried by the QR code. */
module Pairing {
  import opened Types
  import opened Text
  import opened Percent
  import opened Utf8

  datatype PairingPayload = PairingPayload(
    version: nat, instanceId: string, sessionId: string, secret: string, fingerprint: string, relayUrl: string)

  datatype LinkError =
    BadScheme | MissingQuery | Undecodable | BadVersion | UnsupportedVersion | BadSecret | Missing(field: string)

  const PROTOCOL_VERSION: nat := 1
  const U32_MAX: nat := 0xFFFF_FFFF
  const DEFAULT_RELAY_URL := "wss://relay.agentdesk.io"
  const SCHEME := "agentdesk://pair?"
  const SCHEME_WITH_SLASH := "agentdesk://pair/?"

  // ---- writing ---------------------------------------------------------------------------------------

  /** Without colons and spaces. */
  function Stripped(s: string): string {
    if s == "" then ""
    else if s[0] == ':' || s[0] == ' ' then Stripped(s[1..])
    else [s[0]] + Stripped(s[1..])
  }

  /** The parameters of a link, in order. */
  function Parameters(p: PairingPayload): seq<(string, string)> {
    [("v", Decimal(p.version)), ("inst", PercentEncode(p.instanceId)), ("sess", PercentEncode(p.sessionId)),
     ("sec", PercentEncode(p.secret)), ("fp", Stripped(p.fingerprint)), ("relay", PercentEncode(p.relayUrl))]
  }

  function Pair(parameter: (string, string)): string {
    parameter.0 + "=" + parameter.1
  }

  function Query(parameters: seq<(string, string)>): string {
    if parameters == [] then ""
    else if |parameters| == 1 then Pair(parameters[0])
    else Pair(parameters[0]) + "&" + Query(parameters[1..])
  }

  function ToUri(p: PairingPayload): string {
    SCHEME + Query(Parameters(p))
  }

  predicate AllUnreserved(text: string) {
    forall ch :: ch in text ==> 'a' <= ch <= 'z' || 'A' <= ch <= 'Z' || '0' <= ch <= '9' || ch in "-._~"
  }

  lemma {:induction false} UnreservedStays(text: string)
    requires AllUnreserved(text)
    ensures PercentEncode(text) == text && Stripped(text) == text
  {
    hide PercentEncode;
    if text == "" {
      NothingEscaped();
    } else {
      assert text[0] in text && [text[0]] + text[1..] == text;
      PercentEncodes(text[0], text[1..]);
      UnreservedStays(text[1..]);
    }
  }

  lemma NothingEscaped()
    ensures PercentEncode("") == ""
  {
  }

  /** The text of a link whose values need no escapes. */
  lemma LinkText(p: PairingPayload)
    requires AllUnreserved(p.instanceId) && AllUnreserved(p.sessionId) && AllUnreserved(p.secret)
    requires AllUnreserved(p.fingerprint) && AllUnreserved(p.relayUrl)
    ensures ToUri(p) ==
              "agentdesk://pair?" +
              ("v" + "=" + Decimal(p.version) + "&" +
               ("inst" + "=" + p.instanceId + "&" +
                ("sess" + "=" + p.sessionId + "&" +
                 ("sec" + "=" + p.secret + "&" +
                  ("fp" + "=" + p.fingerprint + "&" +
                   ("relay" + "=" + p.relayUrl))))))
  {
    hide PercentEncode, Stripped, Decimal, AllUnreserved, Query;
    UnreservedStays(p.instanceId);
    UnreservedStays(p.sessionId);
    UnreservedStays(p.secret);
    UnreservedStays(p.fingerprint);
    UnreservedStays(p.relayUrl);
    var ps := Parameters(p);
    QueryNext(ps);
    QueryNext(ps[1..]);
    QueryNext(ps[2..]);
    QueryNext(ps[3..]);
    QueryNext(ps[4..]);
    OnePair(ps[5..]);
    assert ps[1..][1..] == ps[2..] && ps[2..][1..] == ps[3..] && ps[3..][1..] == ps[4..] && ps[4..][1..] == ps[5..];
  }

  lemma OnePair(ps: seq<(string, string)>)
    requires |ps| == 1
    ensures Query(ps) == Pair(ps[0])
  {
  }

  lemma QueryNext(ps: seq<(string, string)>)
    requires |ps| >= 2
    ensures Query(ps) == Pair(ps[0]) + "&" + Query(ps[1..])
  {
  }

  // ---- reading ---------------------------------------------------------------------------------------

  function Find(s: string, c: char): (i: nat)
    ensures i <= |s| && c !in s[..i] && (i < |s| ==> s[i] == c)
  {
    if s == "" || s[0] == c then 0 else
      assert s[..1 + Find(s[1..], c)] == [s[0]] + s[1..][..Find(s[1..], c)];
      1 + Find(s[1..], c)
  }

  function SplitOnce(s: string, c: char): Option<(string, string)> {
    var i := Find(s, c);
    if i == |s| then None else Some((s[..i], s[i + 1..]))
  }

  function Split(s: string, c: char): seq<string>
    decreases |s|
  {
    var i := Find(s, c);
    if i == |s| then [s] else [s[..i]] + Split(s[i + 1..], c)
  }

  function DigitsValue(s: string): Option<nat> {
    if s == "" then Some(0)
    else
      var init := DigitsValue(s[..|s| - 1]);
      if init.None? || !('0' <= s[|s| - 1] <= '9') then None
      else Some(init.value * 10 + (s[|s| - 1] as int - '0' as int))
  }

  /** A 32-bit number in decimal; a plus sign may come first. */
  function ParseU32(s: string): Option<nat> {
    var digits := if s != "" && s[0] == '+' then s[1..] else s;
    var value := DigitsValue(digits);
    if digits == "" || value.None? || value.value > U32_MAX then None else value
  }

  predicate IsHex(ch: char) {
    '0' <= ch <= '9' || 'a' <= ch <= 'f' || 'A' <= ch <= 'F'
  }

  predicate IsSecret(s: string) {
    |s| == 64 && forall ch :: ch in s ==> IsHex(ch)
  }

  /** What has been read so far. */
  datatype Fields = Fields(
    version: Option<nat>, instanceId: Option<string>, sessionId: Option<string>, secret: Option<string>,
    fingerprint: Option<string>, relayUrl: Option<string>)

  function NonBlank(value: string, otherwise: Option<string>): Option<string> {
    if IsBlank(value) then otherwise else Some(value)
  }

  function ReadValue(f: Fields, key: string, value: string): Result<Fields, LinkError> {
    if key == "v" then
      if ParseU32(value).None? then Err(BadVersion)
      else if ParseU32(value).value != PROTOCOL_VERSION then Err(UnsupportedVersion)
      else Ok(f.(version := ParseU32(value)))
    else if key == "inst" then Ok(f.(instanceId := NonBlank(value, f.instanceId)))
    else if key == "sess" then Ok(f.(sessionId := NonBlank(value, f.sessionId)))
    else if key == "sec" then
      if IsSecret(Trim(value)) then Ok(f.(secret := Some(Trim(value)))) else Err(BadSecret)
    else if key == "fp" then Ok(f.(fingerprint := NonBlank(value, f.fingerprint)))
    else if key == "relay" then Ok(f.(relayUrl := NonBlank(value, f.relayUrl)))
    else Ok(f)
  }

  /** Key and value as a parameter writes them; without an equals sign it is all key. */
  function Parts(pair: string): (string, string) {
    match SplitOnce(pair, '=')
    case Some(parts) => parts
    case None => (pair, "")
  }

  function ReadPair(f: Fields, pair: string): Result<Fields, LinkError> {
    if pair == "" then Ok(f)
    else
      var (key, raw) := Parts(pair);
      match PercentDecode(raw)
      case None => Err(Undecodable)
      case Some(value) => ReadValue(f, key, value)
  }

  function ReadPairs(f: Fields, pairs: seq<string>): Result<Fields, LinkError>
    decreases |pairs|
  {
    if pairs == [] then Ok(f)
    else match ReadPair(f, pairs[0])
      case Err(error) => Err(error)
      case Ok(next) => ReadPairs(next, pairs[1..])
  }

  const NOTHING_READ := Fields(None, None, None, None, None, None)

  function Complete(f: Fields): Result<PairingPayload, LinkError> {
    if f.version.None? then Err(Missing("version"))
    else if f.instanceId.None? then Err(Missing("instance_id"))
    else if f.sessionId.None? then Err(Missing("session_id"))
    else if f.secret.None? then Err(Missing("pairing_secret"))
    else if f.fingerprint.None? then Err(Missing("fingerprint"))
    else Ok(PairingPayload(f.version.value, f.instanceId.value, f.sessionId.value, f.secret.value,
                           f.fingerprint.value, if f.relayUrl.Some? then f.relayUrl.value else DEFAULT_RELAY_URL))
  }

  function FromQuery(query: string): Result<PairingPayload, LinkError> {
    match ReadPairs(NOTHING_READ, Split(query, '&'))
    case Err(error) => Err(error)
    case Ok(f) => Complete(f)
  }

  function FromUri(uri: string): Result<PairingPayload, LinkError> {
    var trimmed := Trim(uri);
    if !(SCHEME <= trimmed || SCHEME_WITH_SLASH <= trimmed) then Err(BadScheme)
    else match SplitOnce(trimmed, '?')
      case None => Err(MissingQuery)
      case Some(parts) => FromQuery(parts.1)
  }

  /** The loop over the parameters. */
  method ReadQuery(query: string) returns (r: Result<PairingPayload, LinkError>)
    ensures r == FromQuery(query)
  {
    hide ReadPair;
    var pairs := Split(query, '&');
    var f := NOTHING_READ;
    assert pairs[0..] == pairs;
    for i := 0 to |pairs|
      invariant ReadPairs(f, pairs[i..]) == ReadPairs(NOTHING_READ, pairs)
    {
      assert pairs[i..][1..] == pairs[i + 1..];
      var next := ReadPair(f, pairs[i]);
      if next.Err? {
        return Err(next.error);
      }
      f := next.value;
    }
    r := Complete(f);
  }

  // ---- splitting -------------------------------------------------------------------------------------

  lemma {:induction false} FindFirst(a: string, c: char, b: string)
    requires c !in a
    ensures Find(a + [c] + b, c) == |a|
  {
    if a != "" {
      assert (a + [c] + b)[1..] == a[1..] + [c] + b;
      FindFirst(a[1..], c, b);
    }
  }

  lemma {:induction false} FindNone(a: string, c: char)
    requires c !in a
    ensures Find(a, c) == |a|
  {
    if a != "" {
      FindNone(a[1..], c);
    }
  }

  lemma SplitFirst(a: string, c: char, b: string)
    requires c !in a
    ensures Split(a + [c] + b, c) == [a] + Split(b, c)
    ensures SplitOnce(a + [c] + b, c) == Some((a, b))
  {
    hide Find;
    FindFirst(a, c, b);
    assert (a + [c] + b)[..|a|] == a && (a + [c] + b)[|a| + 1..] == b;
  }

  lemma {:induction false} SplitAppend(a: string, c: char, b: string)
    ensures Split(a + [c] + b, c) == Split(a, c) + Split(b, c)
    decreases |a|
  {
    hide Find;
    var i := Find(a, c);
    assert a[..i] == if i == |a| then a else a[..i];
    if i == |a| {
      SplitFirst(a, c, b);
    } else {
      var head, tail := a[..i], a[i + 1..];
      assert a + [c] + b == head + [c] + (tail + [c] + b);
      SplitFirst(head, c, tail + [c] + b);
      SplitAppend(tail, c, b);
    }
  }

  /** Keys and values as links carry them. */
  predicate PlainParameter(parameter: (string, string)) {
    parameter.0 != "" && '=' !in parameter.0 && '&' !in parameter.0 && '&' !in parameter.1
  }

  function ReadAll(f: Fields, parameters: seq<(string, string)>): Result<Fields, LinkError>
    decreases |parameters|
  {
    if parameters == [] then Ok(f)
    else match PercentDecode(parameters[0].1)
      case None => Err(Undecodable)
      case Some(value) =>
        match ReadValue(f, parameters[0].0, value)
        case Err(error) => Err(error)
        case Ok(next) => ReadAll(next, parameters[1..])
  }

  lemma ReadOne(f: Fields, parameter: (string, string))
    requires PlainParameter(parameter)
    ensures ReadPair(f, Pair(parameter)) ==
              match PercentDecode(parameter.1)
              case None => Err(Undecodable)
              case Some(value) => ReadValue(f, parameter.0, value)
  {
    hide ReadValue, PercentDecode, Split, Find;
    SplitFirst(parameter.0, '=', parameter.1);
  }

  lemma {:induction false} QueryReads(f: Fields, parameters: seq<(string, string)>)
    requires parameters != [] && forall parameter :: parameter in parameters ==> PlainParameter(parameter)
    ensures ReadPairs(f, Split(Query(parameters), '&')) == ReadAll(f, parameters)
    decreases |parameters|
  {
    hide ReadValue, PercentDecode, ReadPair, Find;
    var first, rest := parameters[0], parameters[1..];
    ReadOne(f, first);
    assert '&' !in Pair(first);
    if rest == [] {
      FindNone(Pair(first), '&');
      assert Split(Query(parameters), '&') == [Pair(first)];
    } else {
      SplitFirst(Pair(first), '&', Query(rest));
      match ReadPair(f, Pair(first)) {
        case Err(_) =>
        case Ok(next) => QueryReads(next, rest);
      }
    }
  }

  // ---- the round trip --------------------------------------------------------------------------------

  lemma {:induction false} DecimalReads(n: nat)
    ensures DigitsValue(Decimal(n)) == Some(n) && forall ch :: ch in Decimal(n) ==> '0' <= ch <= '9'
  {
    if n < 10 {
      assert Decimal(n)[..0] == "";
    } else {
      DecimalReads(n / 10);
      assert Decimal(n)[..|Decimal(n)| - 1] == Decimal(n / 10);
    }
  }

  lemma ParametersArePlain(p: PairingPayload)
    requires '&' !in Stripped(p.fingerprint)
    ensures forall parameter :: parameter in Parameters(p) ==> PlainParameter(parameter)
  {
    hide PercentEncode, Stripped, Decimal;
    EncodedIsSafe(p.instanceId);
    EncodedIsSafe(p.sessionId);
    EncodedIsSafe(p.secret);
    EncodedIsSafe(p.relayUrl);
    DecimalReads(p.version);
  }

  lemma ParametersDecode(p: PairingPayload)
    ensures var ps := Parameters(p);
            && PercentDecode(ps[0].1) == Some(Decimal(p.version))
            && PercentDecode(ps[1].1) == Some(p.instanceId)
            && PercentDecode(ps[2].1) == Some(p.sessionId)
            && PercentDecode(ps[3].1) == Some(p.secret)
            && ps[4].1 == Stripped(p.fingerprint)
            && PercentDecode(ps[5].1) == Some(p.relayUrl)
  {
    hide PercentEncode, PercentDecode, Stripped, Decimal;
    PercentRoundTrip(p.instanceId);
    PercentRoundTrip(p.sessionId);
    PercentRoundTrip(p.secret);
    PercentRoundTrip(p.relayUrl);
    DecimalReads(p.version);
    PlainDecodes(Decimal(p.version));
  }

  lemma VersionReads(n: nat)
    ensures ParseU32(Decimal(n)) == if n <= U32_MAX then Some(n) else None
  {
    DecimalReads(n);
    assert Decimal(n)[0] in Decimal(n);
  }

  /** What a link written for `p` reads as, if its fingerprint does not contain what separates parameters. */
  function Reread(p: PairingPayload): Result<PairingPayload, LinkError> {
    var fingerprint := PercentDecode(Stripped(p.fingerprint));
    if p.version > U32_MAX then Err(BadVersion)
    else if p.version != PROTOCOL_VERSION then Err(UnsupportedVersion)
    else if !IsSecret(Trim(p.secret)) then Err(BadSecret)
    else if fingerprint.None? then Err(Undecodable)
    else if IsBlank(p.instanceId) then Err(Missing("instance_id"))
    else if IsBlank(p.sessionId) then Err(Missing("session_id"))
    else if IsBlank(fingerprint.value) then Err(Missing("fingerprint"))
    else Ok(PairingPayload(1, p.instanceId, p.sessionId, Trim(p.secret), fingerprint.value,
                           if IsBlank(p.relayUrl) then DEFAULT_RELAY_URL else p.relayUrl))
  }

  lemma ReadStep(f: Fields, ps: seq<(string, string)>, i: nat, value: string)
    requires i < |ps| && PercentDecode(ps[i].1) == Some(value)
    ensures ReadAll(f, ps[i..]) == match ReadValue(f, ps[i].0, value)
                                   case Err(error) => Err(error)
                                   case Ok(next) => ReadAll(next, ps[i + 1..])
  {
    hide ReadValue, PercentDecode;
    assert ps[i..][0] == ps[i] && ps[i..][1..] == ps[i + 1..];
  }

  lemma KeysDiffer()
    ensures "inst" != "sess"
  {
    assert "inst"[0] != "sess"[0];
  }

  lemma ReadUndecodable(f: Fields, ps: seq<(string, string)>, i: nat)
    requires i < |ps| && PercentDecode(ps[i].1).None?
    ensures ReadAll(f, ps[i..]) == Err(Undecodable)
  {
    hide ReadValue, PercentDecode;
    assert ps[i..][0] == ps[i];
  }

  lemma ParametersRead(p: PairingPayload)
    ensures Reread(p) == match ReadAll(NOTHING_READ, Parameters(p))
                         case Err(error) => Err(error)
                         case Ok(f) => Complete(f)
  {
    hide PercentEncode, PercentDecode, Stripped, Decimal, IsBlank, Trim, IsSecret, ParseU32, ReadAll;
    ParametersDecode(p);
    VersionReads(p.version);
    KeysDiffer();
    var ps := Parameters(p);
    assert ps[0..] == ps && ps[6..] == [];
    ReadStep(NOTHING_READ, ps, 0, Decimal(p.version));
    if p.version == PROTOCOL_VERSION {
      var f0 := NOTHING_READ.(version := Some(1));
      ReadStep(f0, ps, 1, p.instanceId);
      var f1 := f0.(instanceId := NonBlank(p.instanceId, None));
      ReadStep(f1, ps, 2, p.sessionId);
      var f2 := f1.(sessionId := NonBlank(p.sessionId, None));
      ReadStep(f2, ps, 3, p.secret);
      if IsSecret(Trim(p.secret)) {
        var f3 := f2.(secret := Some(Trim(p.secret)));
        var fingerprint := PercentDecode(ps[4].1);
        if fingerprint.None? {
          ReadUndecodable(f3, ps, 4);
        } else {
          ReadStep(f3, ps, 4, fingerprint.value);
          var f4 := f3.(fingerprint := NonBlank(fingerprint.value, None));
          ReadStep(f4, ps, 5, p.relayUrl);
          ReadNothing(f4.(relayUrl := NonBlank(p.relayUrl, None)));
        }
      }
    }
  }

  lemma ReadNothing(f: Fields)
    ensures ReadAll(f, []) == Ok(f)
  {
  }

  lemma TrimKeeps(s: string)
    requires s != "" && !IsWhitespace(s[0]) && !IsWhitespace(s[|s| - 1])
    ensures Trim(s) == s
  {
  }

  lemma LastOfQuery(ps: seq<(string, string)>)
    requires ps != []
    ensures Query(ps) != ""
    ensures var last := ps[|ps| - 1];
            Query(ps)[|Query(ps)| - 1] == if last.1 == "" then '=' else last.1[|last.1| - 1]
    decreases |ps|
  {
    if |ps| > 1 {
      LastOfQuery(ps[1..]);
    }
  }

  lemma UriIsTrimmed(p: PairingPayload)
    ensures Trim(ToUri(p)) == ToUri(p)
  {
    hide PercentEncode, Query, Trim;
    var uri, relay := ToUri(p), PercentEncode(p.relayUrl);
    LastOfQuery(Parameters(p));
    EncodedIsSafe(p.relayUrl);
    if relay != "" {
      assert relay[|relay| - 1] in relay;
    }
    assert uri[|uri| - 1] == Query(Parameters(p))[|Query(Parameters(p))| - 1];
    TrimKeeps(uri);
  }

  lemma UriIsQuery(p: PairingPayload)
    ensures FromUri(ToUri(p)) == FromQuery(Query(Parameters(p)))
  {
    hide Query, Trim, Parameters, Find, FromQuery;
    UriIsTrimmed(p);
    var query := Query(Parameters(p));
    var head := "agentdesk://pair";
    assert '?' !in head;
    assert ToUri(p) == head + ['?'] + query;
    SplitFirst(head, '?', query);
  }

  /** What a link written for any payload reads as, if the fingerprint does not contain an ampersand. */
  lemma UriRereads(p: PairingPayload)
    requires '&' !in Stripped(p.fingerprint)
    ensures FromUri(ToUri(p)) == Reread(p)
  {
    hide Query, Parameters, Find, FromUri, ReadPairs, Split, ReadAll, Complete, Reread;
    UriIsQuery(p);
    ParametersArePlain(p);
    SixParameters(p);
    QueryReads(NOTHING_READ, Parameters(p));
    ParametersRead(p);
  }

  lemma SixParameters(p: PairingPayload)
    ensures |Parameters(p)| == 6
  {
  }

  lemma HexIsNotBlank(s: string)
    requires IsSecret(s)
    ensures Trim(s) == s
  {
    assert s[0] in s && s[|s| - 1] in s;
    TrimKeeps(s);
  }

  // ---- fingerprints that would be more than one parameter ------------------------------------------

  /** A fingerprint read so far is at most `n` bytes long. */
  predicate Bounded(f: Fields, n: nat) {
    f.fingerprint.Some? ==> |EncodeAll(f.fingerprint.value)| <= n
  }

  predicate Brief(pair: string, n: nat) {
    Parts(pair).0 == "fp" ==> |EncodeAll(Parts(pair).1)| <= n
  }

  lemma PairBounded(f: Fields, pair: string, n: nat)
    requires Bounded(f, n) && Brief(pair, n)
    ensures ReadPair(f, pair).Ok? ==> Bounded(ReadPair(f, pair).value, n)
  {
    hide PercentDecode, EncodeAll, ParseU32, IsSecret, Trim, IsBlank;
    DecodingShrinks(Parts(pair).1);
  }

  lemma {:induction false} PairsBounded(f: Fields, pairs: seq<string>, n: nat)
    requires Bounded(f, n) && forall pair :: pair in pairs ==> Brief(pair, n)
    ensures ReadPairs(f, pairs).Ok? ==> Bounded(ReadPairs(f, pairs).value, n)
    decreases |pairs|
  {
    hide ReadPair, Bounded, Brief;
    if pairs != [] {
      PairBounded(f, pairs[0], n);
      match ReadPair(f, pairs[0]) {
        case Err(_) =>
        case Ok(next) => PairsBounded(next, pairs[1..], n);
      }
    }
  }

  lemma PieceBrief(pair: string, n: nat)
    requires |EncodeAll(pair)| <= n
    ensures Brief(pair, n)
  {
    hide EncodeAll;
    var i := Find(pair, '=');
    if i < |pair| {
      EncodeAllAppend(pair[..i + 1], pair[i + 1..]);
      assert pair[..i + 1] + pair[i + 1..] == pair;
    } else {
      NothingEncoded();
    }
  }

  lemma {:induction false} PiecesBrief(s: string, n: nat)
    requires |EncodeAll(s)| <= n
    ensures forall pair :: pair in Split(s, '&') ==> Brief(pair, n)
    decreases |s|
  {
    hide EncodeAll, Brief, Find;
    var i := Find(s, '&');
    if i == |s| {
      PieceBrief(s, n);
    } else {
      EncodeAllAppend(s[..i], s[i..]);
      EncodeAllAppend(s[i..i + 1], s[i + 1..]);
      assert s[..i] + s[i..] == s && s[i..i + 1] + s[i + 1..] == s[i..];
      PieceBrief(s[..i], n);
      PiecesBrief(s[i + 1..], n);
    }
  }

  /** What the parameters before the fingerprint leave read. */
  lemma NoFingerprintYet(ps: seq<(string, string)>, f: Fields)
    requires (forall parameter :: parameter in ps ==> parameter.0 != "fp") && f.fingerprint.None?
    ensures ReadAll(f, ps).Ok? ==> ReadAll(f, ps).value.fingerprint.None?
    decreases |ps|
  {
    hide PercentDecode, ParseU32, IsSecret, Trim, IsBlank;
    if ps != [] {
      match PercentDecode(ps[0].1) {
        case None =>
        case Some(value) =>
          match ReadValue(f, ps[0].0, value) {
            case Err(_) =>
            case Ok(next) => NoFingerprintYet(ps[1..], next);
          }
      }
    }
  }

  lemma {:induction false} QueryJoins(a: seq<(string, string)>, b: seq<(string, string)>)
    requires a != [] && b != []
    ensures Query(a + b) == Query(a) + ['&'] + Query(b)
    decreases |a|
  {
    assert (a + b)[1..] == a[1..] + b;
    if |a| > 1 {
      QueryJoins(a[1..], b);
    } else {
      assert a[1..] + b == b;
    }
  }

  lemma FirstFourPlain(p: PairingPayload)
    ensures var ps := Parameters(p)[..4];
            forall parameter :: parameter in ps ==> PlainParameter(parameter) && parameter.0 != "fp"
  {
    hide PercentEncode, Stripped, Decimal;
    EncodedIsSafe(p.instanceId);
    EncodedIsSafe(p.sessionId);
    EncodedIsSafe(p.secret);
    DecimalReads(p.version);
  }

  lemma RelayBrief(p: PairingPayload, n: nat)
    ensures forall pair :: pair in Split(Query(Parameters(p)[5..]), '&') ==> Brief(pair, n)
  {
    hide PercentEncode, Stripped, Decimal, EncodeAll, Find;
    var relay := ("relay", PercentEncode(p.relayUrl));
    assert Parameters(p)[5..] == [relay];
    EncodedIsSafe(p.relayUrl);
    assert '&' !in Pair(relay);
    FindNone(Pair(relay), '&');
    SplitFirst("relay", '=', relay.1);
    assert Pair(relay) == "relay" + ['='] + relay.1;
    assert Parts(Pair(relay)).0 == "relay";
  }

  /** An ampersand in a fingerprint cuts it: what is read is shorter. */
  lemma AmpersandCuts(p: PairingPayload)
    requires '&' in Stripped(p.fingerprint)
    ensures FromUri(ToUri(p)).Ok? ==> FromUri(ToUri(p)).value.fingerprint != Stripped(p.fingerprint)
  {
    hide Query, Find, FromUri, ReadPairs, Split, Stripped, PercentEncode, Decimal, EncodeAll, Brief, Bounded, ReadAll;
    var ps, fp := Parameters(p), Stripped(p.fingerprint);
    var n: nat := FingerprintPieces(fp);
    var first, middle, last := ps[..4], [ps[4]], ps[5..];
    assert ps == first + (middle + last);
    QueryJoins(first, middle + last);
    QueryJoins(middle, last);
    OneQuery(ps[4]);
    UriIsQuery(p);
    var pairs, relays := Split("fp=" + fp, '&'), Split(Query(last), '&');
    SplitAppend(Query(first), '&', "fp=" + fp + ['&'] + Query(last));
    SplitAppend("fp=" + fp, '&', Query(last));
    assert Query(middle) == "fp=" + fp;
    assert Query(ps) == Query(first) + ['&'] + ("fp=" + fp + ['&'] + Query(last));
    assert Split(Query(ps), '&') == Split(Query(first), '&') + (pairs + relays);
    FirstFourPlain(p);
    QueryReads(NOTHING_READ, first);
    NoFingerprintYet(first, NOTHING_READ);
    ReadPairsAppend(NOTHING_READ, Split(Query(first), '&'), pairs + relays);
    RelayBrief(p, n);
    match ReadAll(NOTHING_READ, first) {
      case Err(_) =>
      case Ok(f) =>
        UnreadIsBounded(f, n);
        PairsBounded(f, pairs + relays, n);
        match ReadPairs(f, pairs + relays) {
          case Err(_) =>
          case Ok(g) => BoundedIsOther(g, fp, n);
        }
    }
  }

  lemma OneQuery(parameter: (string, string))
    ensures Query([parameter]) == parameter.0 + ("=" + parameter.1)
  {
  }

  lemma UnreadIsBounded(f: Fields, n: nat)
    requires f.fingerprint.None?
    ensures Bounded(f, n)
  {
  }

  lemma BoundedIsOther(f: Fields, fp: string, n: nat)
    requires Bounded(f, n) && n < |EncodeAll(fp)|
    ensures Complete(f).Ok? ==> Complete(f).value.fingerprint != fp
  {
    hide EncodeAll;
  }

  lemma FingerprintPieces(fp: string) returns (n: nat)
    requires '&' in fp
    ensures n < |EncodeAll(fp)| && forall pair :: pair in Split("fp=" + fp, '&') ==> Brief(pair, n)
  {
    hide EncodeAll, Split, Brief;
    var i := Find(fp, '&');
    FoundBefore(fp, '&');
    var a, b := fp[..i], fp[i + 1..];
    assert fp == a + ['&'] + b;
    n := PartsAreShorter(a, b);
    assert "fp=" + fp == ("fp=" + a) + ['&'] + b;
    SplitFirst("fp=" + a, '&', b);
    PiecesBrief(b, n);
    FirstPieceBrief(a, n);
  }

  lemma PartsAreShorter(a: string, b: string) returns (n: nat)
    ensures n < |EncodeAll(a + ['&'] + b)| && |EncodeAll(a)| <= n && |EncodeAll(b)| <= n
  {
    hide EncodeAll;
    EncodeAllAppend(a + ['&'], b);
    EncodeAllAppend(a, ['&']);
    OneEncoded('&');
    n := |EncodeAll(a)| + |EncodeAll(b)|;
  }

  lemma FirstPieceBrief(a: string, n: nat)
    requires |EncodeAll(a)| <= n
    ensures Brief("fp=" + a, n)
  {
    hide EncodeAll, Find;
    SplitFirst("fp", '=', a);
    assert "fp=" + a == "fp" + ['='] + a;
  }

  lemma {:induction false} FoundBefore(s: string, c: char)
    requires c in s
    ensures Find(s, c) < |s|
  {
    if s[0] != c {
      assert s == [s[0]] + s[1..];
      FoundBefore(s[1..], c);
    }
  }

  /** Reading a link gives back the payload it was written for, but for the colons and spaces of the
      fingerprint, exactly when the payload is one of this protocol version with ids and a relay that are not
      blank, a secret of 64 hexadecimal digits, and a fingerprint, colons and spaces apart, that is not blank,
      contains no ampersand and no escapes: it is the one field written as it is and read as encoded. */
  lemma UriRoundTrip(p: PairingPayload)
    ensures var fp := Stripped(p.fingerprint);
            FromUri(ToUri(p)) == Ok(p.(fingerprint := fp)) <==>
              && p.version == PROTOCOL_VERSION
              && !IsBlank(p.instanceId) && !IsBlank(p.sessionId) && IsSecret(p.secret) && !IsBlank(p.relayUrl)
              && '&' !in fp && PercentDecode(fp) == Some(fp) && !IsBlank(fp)
  {
    hide FromUri, ToUri, Trim, Stripped, IsBlank, PercentDecode;
    if '&' in Stripped(p.fingerprint) {
      AmpersandCuts(p);
    } else {
      UriRereads(p);
      if IsSecret(p.secret) {
        HexIsNotBlank(p.secret);
      }
      DefaultRelayIsNotBlank();
    }
  }

  lemma {:induction false} StrippedIsHex(s: string)
    requires forall ch :: ch in s ==> IsHex(ch) || ch == ':' || ch == ' '
    ensures forall ch :: ch in Stripped(s) ==> IsHex(ch)
  {
    if s != "" {
      assert forall ch :: ch in s[1..] ==> ch in s;
      StrippedIsHex(s[1..]);
      assert s[0] in s;
    }
  }

  /** Fingerprints as they are meant to be, hexadecimal digits with colons or spaces, meet that if they have a
      digit at all. */
  lemma HexFingerprintsTravel(s: string)
    requires forall ch :: ch in s ==> IsHex(ch) || ch == ':' || ch == ' '
    ensures var fp := Stripped(s); '&' !in fp && PercentDecode(fp) == Some(fp) && (IsBlank(fp) <==> fp == "")
  {
    hide PercentDecode, Stripped;
    StrippedIsHex(s);
    var fp := Stripped(s);
    PlainDecodes(fp);
    if fp != "" {
      assert fp[0] in fp;
    }
  }

  lemma DefaultRelayIsNotBlank()
    ensures !IsBlank(DEFAULT_RELAY_URL)
  {
    assert DEFAULT_RELAY_URL[0] == 'w' && 'w' in DEFAULT_RELAY_URL;
  }

  // ---- unknown parameters ----------------------------------------------------------------------------

  predicate Known(key: string) {
    key in {"v", "inst", "sess", "sec", "fp", "relay"}
  }

  lemma {:induction false} ReadPairsAppend(f: Fields, a: seq<string>, b: seq<string>)
    ensures ReadPairs(f, a + b) == match ReadPairs(f, a)
                                   case Err(error) => Err(error)
                                   case Ok(next) => ReadPairs(next, b)
    decreases |a|
  {
    hide ReadPair;
    if a == [] {
      assert a + b == b;
    } else {
      assert (a + b)[1..] == a[1..] + b;
      match ReadPair(f, a[0]) {
        case Err(_) =>
        case Ok(next) => ReadPairsAppend(next, a[1..], b);
      }
    }
  }

  /** A parameter whose key is not known, be it empty or without a value, changes nothing exactly as long as
      its value decodes: otherwise the link is refused, unless it is already refused for what comes before. */
  lemma UnknownParameter(before: string, pair: string, after: string)
    requires '&' !in pair && !Known(Parts(pair).0)
    ensures var with_ := FromQuery(before + "&" + pair + "&" + after);
            match ReadPairs(NOTHING_READ, Split(before, '&'))
            case Err(error) => with_ == Err(error)
            case Ok(_) => with_ == if PercentDecode(Parts(pair).1).None? then Err(Undecodable)
                                   else FromQuery(before + "&" + after)
  {
    hide PercentDecode, ReadPair, Split, ReadValue, Complete, Parts, Known;
    assert before + "&" + pair + "&" + after == before + ['&'] + (pair + ['&'] + after);
    assert before + "&" + after == before + ['&'] + after;
    SplitAppend(before, '&', pair + ['&'] + after);
    SplitFirst(pair, '&', after);
    SplitAppend(before, '&', after);
    ReadPairsAppend(NOTHING_READ, Split(before, '&'), [pair] + Split(after, '&'));
    ReadPairsAppend(NOTHING_READ, Split(before, '&'), Split(after, '&'));
    assert ([pair] + Split(after, '&'))[1..] == Split(after, '&');
    match ReadPairs(NOTHING_READ, Split(before, '&')) {
      case Err(_) =>
      case Ok(f) =>
        UnknownReads(f, pair);
    }
  }

  lemma UnknownReads(f: Fields, pair: string)
    requires !Known(Parts(pair).0)
    ensures ReadPair(f, pair) == if PercentDecode(Parts(pair).1).None? then Err(Undecodable) else Ok(f)
  {
    hide PercentDecode;
    if pair == "" {
      EmptyDecodes();
    }
  }

  lemma EmptyDecodes()
    ensures PercentDecode("") == Some("")
  {
  }

  /** A value that does not decode. */
  lemma UndecodableValue()
    ensures PercentDecode("%FF").None?
  {
    AsciiBytes("%FF");
    assert EncodeAll("%FF") == [0x25, 0x46, 0x46];
    assert Unescape([]) == [];
    assert Unescape([0x25, 0x46, 0x46]) == [0xFF] + Unescape([]);
  }
}
