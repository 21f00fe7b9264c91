/**
 * The inbound record as the web client holds it (the parsed form of the
 * backend's `Inbound` row), and the slice of JavaScript number semantics the
 * client applies to its form fields: `Number(text)`, `String(number)` and
 * truthiness.
 *
 * Every `Option` field stands for a JSON key that may be absent: the client
 * builds these objects with conditional spreads, so "absent" and "present"
 * are different records.
 */
module Inbound {
  import opened Wrappers
  import opened Text

  // ---------------------------------------------------------------- numbers

  /** A JavaScript number restricted to integers, plus NaN. */
  datatype JsNumber = Num(n: int) | NaN

  /** JavaScript truthiness of a number: neither 0 nor NaN. */
  predicate Truthy(x: JsNumber) { x.Num? && x.n != 0 }

  /** `String(x)` for an integer-valued number. */
  function NumberToString(x: JsNumber): (r: string)
    ensures r != []
  {
    match x
    case NaN => "NaN"
    case Num(i) => IntToDecimal(i)
  }

  /** The value of `digits` optionally followed by '.' and zeros: a decimal literal with an integral value. */
  function IntegralLiteral(t: string): (r: Option<nat>)
    ensures r.Some? ==> t != []
  {
    var intPart := match IndexOf(t, '.') case None => t case Some(i) => t[..i];
    var fracPart := match IndexOf(t, '.') case None => "" case Some(i) => t[i + 1..];
    if intPart != [] && AllDigits(intPart) && (forall k :: 0 <= k < |fracPart| ==> fracPart[k] == '0')
    then Some(DigitsValue(intPart))
    else None
  }

  /**
   * `Number(s)`: surrounding ECMAScript whitespace is ignored, a blank string
   * is 0, an optional sign may precede an integral decimal literal, and
   * anything else is NaN.
   */
  function ToNumber(s: string): (r: JsNumber)
    ensures TrimJs(s) == [] ==> r == Num(0)
  {
    var t := TrimJs(s);
    if t == [] then Num(0)
    else
      var signed := t[0] == '-' || t[0] == '+';
      match IntegralLiteral(if signed then t[1..] else t)
      case None => NaN
      case Some(v) => Num(if t[0] == '-' then -(v as int) else v)
  }

  lemma IntegralLiteralOfDecimal(n: nat)
    ensures IntegralLiteral(NatToDecimal(n)) == Some(n)
  {
    DigitsHaveNoDot(NatToDecimal(n));
  }

  lemma DigitsHaveNoDot(s: string)
    requires AllDigits(s)
    ensures IndexOf(s, '.') == None
  {
    IndexOfAbsent(s, '.');
  }

  lemma TrimJsOfDecimal(n: nat, neg: bool)
    ensures TrimJs((if neg then "-" else "") + NatToDecimal(n)) == (if neg then "-" else "") + NatToDecimal(n)
  {
    var s := (if neg then "-" else "") + NatToDecimal(n);
    var d := NatToDecimal(n);
    assert s[|s| - 1] == d[|d| - 1];
    assert IsDigit(d[0]) && IsDigit(d[|d| - 1]);
    TrimOfTrimmed(s, IsJsWhitespace);
  }

  /** `Number(String(i)) === i` for every integer. */
  lemma ToNumberOfDecimal(i: int)
    ensures ToNumber(IntToDecimal(i)) == Num(i)
  {
    if i < 0 {
      ToNumberOfNegative(i);
    } else {
      ToNumberOfNatural(i);
    }
  }

  lemma ToNumberOfNatural(n: nat)
    ensures ToNumber(IntToDecimal(n)) == Num(n)
  {
    var d := NatToDecimal(n);
    assert IntToDecimal(n) == d;
    ToNumberOfDigits(d);
  }

  lemma ToNumberOfNegative(i: int)
    requires i < 0
    ensures ToNumber(IntToDecimal(i)) == Num(i)
  {
    var n: nat := -i;
    var d := NatToDecimal(n);
    var s := "-" + d;
    assert IntToDecimal(i) == s;
    TrimJsOfDecimal(n, true);
    IntegralLiteralOfDecimal(n);
    assert s[0] == '-' && s[1..] == d;
  }

  /** A non-empty string of decimal digits converts to its value. */
  lemma ToNumberOfDigits(s: string)
    requires s != [] && AllDigits(s)
    ensures ToNumber(s) == Num(DigitsValue(s))
  {
    assert IsDigit(s[0]) && IsDigit(s[|s| - 1]);
    TrimOfTrimmed(s, IsJsWhitespace);
    DigitsHaveNoDot(s);
  }

  /** `String(Number(s))` gives back any canonical integer text. */
  lemma NumberTextRoundTrip(x: JsNumber)
    requires x.Num?
    ensures ToNumber(NumberToString(x)) == x
  {
    ToNumberOfDecimal(x.n);
  }

  const GiB: int := 1024 * 1024 * 1024

  // ---------------------------------------------------------------- records

  datatype Client = Client(
    id: Option<string>,
    password: Option<string>,
    flow: Option<string>,
    level: Option<JsNumber>,
    email: Option<string>,
    alterId: Option<JsNumber>)

  /** `settings`: the client list of vless/vmess/trojan, or the flat shadowsocks fields. */
  datatype Settings = Settings(
    clients: Option<seq<Client>>,
    decryption: Option<string>,
    ssMethod: Option<string>,
    password: Option<string>,
    network: Option<string>)

  datatype WsHeaders = WsHeaders(host: Option<string>)
  datatype WsSettings = WsSettings(path: Option<string>, headers: Option<WsHeaders>)
  datatype GrpcSettings = GrpcSettings(serviceName: Option<string>, multiMode: Option<bool>)
  datatype HttpSettings = HttpSettings(host: Option<seq<string>>, path: Option<string>)
  datatype XhttpSettings = XhttpSettings(mode: Option<string>, path: Option<string>, host: Option<string>)
  datatype TlsSettings = TlsSettings(serverName: Option<string>)

  datatype RealitySettings = RealitySettings(
    show: Option<bool>,
    dest: Option<string>,
    xver: Option<JsNumber>,
    serverNames: Option<seq<string>>,
    privateKey: Option<string>,
    publicKey: Option<string>,
    shortIds: Option<seq<string>>,
    fingerprint: Option<string>,
    minClientVer: Option<string>,
    maxClientVer: Option<string>,
    maxTimeDiff: Option<JsNumber>)

  datatype Sockopt = Sockopt(tcpFastOpen: Option<bool>, tcpNoDelay: Option<bool>)

  datatype StreamSettings = StreamSettings(
    network: Option<string>,
    security: Option<string>,
    wsSettings: Option<WsSettings>,
    grpcSettings: Option<GrpcSettings>,
    httpSettings: Option<HttpSettings>,
    xhttpSettings: Option<XhttpSettings>,
    tlsSettings: Option<TlsSettings>,
    realitySettings: Option<RealitySettings>,
    sockopt: Option<Sockopt>,
    acceptProxyProtocol: Option<bool>)

  /** A JSON value the client passes through without looking inside (sniffing, allocate). */
  datatype Json =
    | JNull
    | JBool(b: bool)
    | JNumber(n: int)
    | JString(s: string)
    | JArray(items: seq<Json>)
    | JObject(members: seq<(string, Json)>)

  /** One inbound as the client stores, edits and submits it. */
  datatype Inbound = Inbound(
    id: string,
    remark: string,
    enable: bool,
    port: int,
    protocol: string,
    tag: Option<string>,
    listen: Option<string>,
    settings: Option<Settings>,
    streamSettings: Option<StreamSettings>,
    sniffing: Option<Json>,
    allocate: Option<Json>,
    total: JsNumber,
    expiry: JsNumber,
    up: Option<int>,
    down: Option<int>)

  /** `x || d` for an optional string: the empty string and a missing key both fall back to `d`. */
  function StringOr(x: Option<string>, d: string): (r: string)
    ensures x.Some? && x.value != [] ==> r == x.value
    ensures x.None? || x.value == [] ==> r == d
  {
    if x.Some? && x.value != [] then x.value else d
  }

  /** `xs?.[0]`: the first element of an optional list, if there is one. */
  function FirstOf<T>(xs: Option<seq<T>>): (r: Option<T>)
    ensures r.Some? <==> xs.Some? && |xs.value| > 0
    ensures r.Some? ==> r.value == xs.value[0]
  {
    if xs.Some? && |xs.value| > 0 then Some(xs.value[0]) else None
  }

  /** `settings?.clients?.[0]`. */
  function FirstClient(s: Option<Settings>): Option<Client> {
    if s.Some? then FirstOf(s.value.clients) else None
  }

  /** `x || 0` for an optional counter. */
  function CounterOrZero(x: Option<int>): int { x.GetOr(0) }
}
