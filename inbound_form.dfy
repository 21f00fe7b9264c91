/**
 * The add/edit inbound form shared by both inbound dialogs: its field values,
 * the defaults a reset restores, the values loaded from an inbound being
 * edited, and the builder that checks the form and assembles the inbound
 * record it submits. Randomness, the UUID source and date conversion are
 * parameters. The fields are grouped by the sections of the form.
 */
module InboundForm {
  import opened Wrappers
  import opened Text
  import opened Encoding
  import opened Inbound

  /** The basic section. */
  datatype General = General(
    remark: string, isEnable: bool, protocol: string, tag: string, listen: string,
    port: string, totalTraffic: string, expiryTime: string)

  /** The client credential fields. */
  datatype ClientFields = ClientFields(
    uuid: string, flow: string, level: string, email: string, alterId: string, password: string)

  /** The protocol-wide fields: vless decryption and the shadowsocks settings. */
  datatype ProtocolFields = ProtocolFields(decryption: string, ssMethod: string, ssPassword: string, ssNetwork: string)

  /** The transport section. */
  datatype TransportFields = TransportFields(
    network: string, wsPath: string, wsHost: string, grpcServiceName: string, grpcMultiMode: bool,
    h2Host: string, h2Path: string, xhttpMode: string, xhttpPath: string, xhttpHost: string)

  /** The reality fields of the security section. */
  datatype RealityFields = RealityFields(
    show: bool, dest: string, xver: string, fingerprint: string, serverNames: string,
    privateKey: string, publicKey: string, shortIds: string,
    minClientVer: string, maxClientVer: string, maxTimeDiff: string)

  /** The socket options. */
  datatype SocketFields = SocketFields(acceptProxyProtocol: bool, tcpFastOpen: bool, tcpNoDelay: bool)

  /** Every field of the form, as the text or switch the user sees. */
  datatype FormValues = FormValues(
    general: General, client: ClientFields, proto: ProtocolFields, transport: TransportFields,
    security: string, reality: RealityFields, sockets: SocketFields)

  const DefaultSsMethod: string := "chacha20-ietf-poly1305"
  const DefaultSsNetwork: string := "tcp,udp"
  const DefaultDest: string := "www.microsoft.com:443"
  const DefaultServerName: string := "www.microsoft.com"

  const DefaultProtocolFields: ProtocolFields := ProtocolFields("none", DefaultSsMethod, "", DefaultSsNetwork)
  const DefaultTransport: TransportFields := TransportFields("tcp", "/", "", "", false, "", "/", "auto", "/", "")
  const DefaultReality: RealityFields :=
    RealityFields(false, DefaultDest, "0", "chrome", DefaultServerName, "", "", "", "", "", "")

  function DefaultGeneral(port: string): General {
    General("", true, "vless", "", "", port, "0", "")
  }

  function DefaultClient(uuid: string): ClientFields {
    ClientFields(uuid, "", "0", "", "0", "")
  }

  /** The values a freshly mounted form starts with. */
  function InitialValues(uuid: string): (f: FormValues)
    ensures f.general.port == "40754" && f.client.uuid == uuid && f.security == "none"
    ensures f.sockets == SocketFields(false, true, true)
  {
    FormValues(DefaultGeneral("40754"), DefaultClient(uuid), DefaultProtocolFields, DefaultTransport,
      "none", DefaultReality, SocketFields(false, true, true))
  }

  // ---------------------------------------------------------------- reset

  /** `Math.floor(r * 50000) + 10000` for a random `r` in [0, 1). */
  function RandomPort(r: real): (p: int)
    requires 0.0 <= r < 1.0
    ensures 10000 <= p < 60000
  {
    (r * 50000.0).Floor + 10000
  }

  /** `resetForm`: every field back to its default with a fresh port and UUID, except TCP Fast Open. */
  function ResetValues(f: FormValues, port: int, uuid: string): (g: FormValues)
    ensures g.sockets.tcpFastOpen == f.sockets.tcpFastOpen
    ensures g == InitialValues(uuid).(general := DefaultGeneral(IntToDecimal(port)),
                                      sockets := SocketFields(false, f.sockets.tcpFastOpen, true))
  {
    FormValues(DefaultGeneral(IntToDecimal(port)), DefaultClient(uuid), DefaultProtocolFields, DefaultTransport,
      "none", DefaultReality, f.sockets.(acceptProxyProtocol := false, tcpNoDelay := true))
  }

  // ---------------------------------------------------------------- checks

  /** The alert a rejected form shows, by its translation key. */
  datatype FormError = RemarkEmpty | PortInvalid | UuidEmpty | PasswordEmpty | RealityPrivateKeyEmpty

  /** The translation key of the alert for each failed check. */
  function ErrorKey(e: FormError): (key: string)
    ensures key != []
  {
    match e
    case RemarkEmpty => "inbound.modal.remark_empty"
    case PortInvalid => "inbound.modal.port_error"
    case UuidEmpty => "inbound.modal.uuid_empty"
    case PasswordEmpty => "inbound.modal.password_empty"
    case RealityPrivateKeyEmpty => "inbound.modal.reality_private_key_empty"
  }

  /** Every check has its own alert, so the alert tells which check failed. */
  lemma ErrorKeysDistinct(e1: FormError, e2: FormError)
    requires e1 != e2
    ensures ErrorKey(e1) != ErrorKey(e2)
  {
    var k1, k2 := ErrorKey(e1), ErrorKey(e2);
    if |k1| == |k2| {
      assert k1[14] != k2[14] || k1[15] != k2[15];
    }
  }

  /** `!port || isNaN(Number(port))` fails. */
  predicate PortAccepted(port: string) { port != [] && ToNumber(port).Num? }

  predicate UsesUuid(protocol: string) { protocol == "vless" || protocol == "vmess" }

  /** The protocol's credential is filled in; protocols without one need none. */
  predicate CredentialPresent(f: FormValues) {
    (UsesUuid(f.general.protocol) ==> f.client.uuid != [])
    && (f.general.protocol == "trojan" ==> f.client.password != [])
    && (f.general.protocol == "shadowsocks" ==> f.proto.ssPassword != [])
  }

  /** The first failing check, in the order the dialog makes them. */
  function FirstError(f: FormValues): (e: Option<FormError>)
    ensures e.None? <==> (TrimJs(f.general.remark) != [] && PortAccepted(f.general.port) && CredentialPresent(f)
                          && (f.security == "reality" ==> f.reality.privateKey != []))
    ensures e == Some(RemarkEmpty) <==> TrimJs(f.general.remark) == []
    ensures e == Some(PortInvalid) <==> TrimJs(f.general.remark) != [] && !PortAccepted(f.general.port)
    ensures e == Some(UuidEmpty) <==> (TrimJs(f.general.remark) != [] && PortAccepted(f.general.port)
                                       && UsesUuid(f.general.protocol) && f.client.uuid == [])
    ensures e == Some(PasswordEmpty) <==> (TrimJs(f.general.remark) != [] && PortAccepted(f.general.port)
                                           && !UsesUuid(f.general.protocol) && !CredentialPresent(f))
    ensures e == Some(RealityPrivateKeyEmpty) <==>
      (TrimJs(f.general.remark) != [] && PortAccepted(f.general.port) && CredentialPresent(f)
       && f.security == "reality" && f.reality.privateKey == [])
  {
    if TrimJs(f.general.remark) == [] then Some(RemarkEmpty)
    else if !PortAccepted(f.general.port) then Some(PortInvalid)
    else if UsesUuid(f.general.protocol) && f.client.uuid == [] then Some(UuidEmpty)
    else if f.general.protocol == "trojan" && f.client.password == [] then Some(PasswordEmpty)
    else if f.general.protocol == "shadowsocks" && f.proto.ssPassword == [] then Some(PasswordEmpty)
    else if f.security == "reality" && f.reality.privateKey == [] then Some(RealityPrivateKeyEmpty)
    else None
  }

  // ---------------------------------------------------------------- settings

  /** `s && { key: s }`: an empty string leaves the key out. */
  function NonEmpty(s: string): (r: Option<string>)
    ensures r.Some? <==> s != []
    ensures r.Some? ==> r.value == s
  {
    if s == [] then None else Some(s)
  }

  /** `s && { key: Number(s) }`. */
  function NumberIfSet(s: string): (r: Option<JsNumber>)
    ensures r.Some? <==> s != []
    ensures r.Some? ==> r.value == ToNumber(s)
  {
    if s == [] then None else Some(ToNumber(s))
  }

  /** The single client of a vless, vmess or trojan inbound. */
  function ClientOf(protocol: string, c: ClientFields): (r: Client)
    ensures UsesUuid(protocol) ==> r.id == Some(c.uuid) && r.password.None?
    ensures !UsesUuid(protocol) ==> r.id.None? && r.password == Some(c.password)
    ensures r.flow.Some? <==> protocol == "vless" && c.flow != []
    ensures r.flow.Some? ==> r.flow.value == c.flow
    ensures r.level == NumberIfSet(c.level) && r.email == NonEmpty(c.email)
    ensures r.alterId.Some? <==> protocol == "vmess"
  {
    if UsesUuid(protocol) then
      Client(Some(c.uuid), None,
        if c.flow != [] && protocol == "vless" then Some(c.flow) else None,
        NumberIfSet(c.level), NonEmpty(c.email),
        if protocol == "vmess" then Some(ToNumber(c.alterId)) else None)
    else
      Client(None, Some(c.password), None, NumberIfSet(c.level), NonEmpty(c.email), None)
  }

  const EmptySettings: Settings := Settings(None, None, None, None, None)

  /** `settings`: one client for vless/vmess/trojan, the flat shadowsocks fields, or `{}`. */
  function SettingsOf(f: FormValues): (s: Settings)
    ensures UsesUuid(f.general.protocol) || f.general.protocol == "trojan" ==>
      s.clients == Some([ClientOf(f.general.protocol, f.client)]) && s.ssMethod.None?
    ensures s.decryption.Some? <==> f.general.protocol == "vless"
    ensures f.general.protocol == "shadowsocks" ==>
      s == Settings(None, None, Some(f.proto.ssMethod), Some(f.proto.ssPassword), Some(f.proto.ssNetwork))
    ensures !UsesUuid(f.general.protocol) && f.general.protocol != "trojan" && f.general.protocol != "shadowsocks" ==>
      s == EmptySettings
  {
    var protocol := f.general.protocol;
    if UsesUuid(protocol) then
      EmptySettings.(clients := Some([ClientOf(protocol, f.client)]),
                     decryption := if protocol == "vless" then Some(f.proto.decryption) else None)
    else if protocol == "trojan" then EmptySettings.(clients := Some([ClientOf(protocol, f.client)]))
    else if protocol == "shadowsocks" then
      Settings(None, None, Some(f.proto.ssMethod), Some(f.proto.ssPassword), Some(f.proto.ssNetwork))
    else EmptySettings
  }

  // ---------------------------------------------------------------- stream settings

  /** `.map(h => h.trim())`. */
  function TrimEach(xs: seq<string>): (r: seq<string>)
    ensures |r| == |xs| && forall i :: 0 <= i < |xs| ==> r[i] == TrimJs(xs[i])
  {
    seq(|xs|, i requires 0 <= i < |xs| => TrimJs(xs[i]))
  }

  /** `.filter(s => s.trim())`: entries with something besides whitespace, untrimmed, in order. */
  function NonBlank(xs: seq<string>): (r: seq<string>)
    ensures |r| <= |xs|
    ensures forall i :: 0 <= i < |r| ==> !Blank(r[i])
    ensures (forall i :: 0 <= i < |xs| ==> !Blank(xs[i])) ==> r == xs
    decreases |xs|
  {
    if xs == [] then []
    else if !Blank(xs[0]) then [xs[0]] + NonBlank(xs[1..])
    else NonBlank(xs[1..])
  }

  /** One entry per line of a multi-line field. */
  function Entries(text: string): seq<string> { NonBlank(Split(text, "\n")) }

  const NoStreamBlocks: StreamSettings := StreamSettings(None, None, None, None, None, None, None, None, None, None)

  /** The transport block the network selects: at most one of the four. */
  function TransportOf(t: TransportFields, security: string): (s: StreamSettings)
    ensures s.network == Some(t.network) && s.security == Some(security)
    ensures s.wsSettings.Some? <==> t.network == "ws"
    ensures s.grpcSettings.Some? <==> t.network == "grpc"
    ensures s.httpSettings.Some? <==> t.network == "h2"
    ensures s.xhttpSettings.Some? <==> t.network == "xhttp"
    ensures s.wsSettings.Some? ==> s.wsSettings.value.path == Some(t.wsPath)
    ensures s.wsSettings.Some? ==> (s.wsSettings.value.headers.Some? <==> t.wsHost != [])
    ensures s.wsSettings.Some? && s.wsSettings.value.headers.Some? ==> s.wsSettings.value.headers.value.host == Some(t.wsHost)
    ensures s.grpcSettings.Some? ==>
      s.grpcSettings.value.serviceName == Some(t.grpcServiceName) && s.grpcSettings.value.multiMode == Some(t.grpcMultiMode)
    ensures s.httpSettings.Some? ==> s.httpSettings.value.path == Some(t.h2Path)
    ensures s.httpSettings.Some? ==> (s.httpSettings.value.host.Some? <==> t.h2Host != [])
    ensures s.httpSettings.Some? && s.httpSettings.value.host.Some? ==>
      var hosts := s.httpSettings.value.host.value;
      var pieces := Split(t.h2Host, ",");
      |hosts| == |pieces| && forall i :: 0 <= i < |hosts| ==> hosts[i] == TrimJs(pieces[i])
    ensures s.xhttpSettings.Some? ==>
      s.xhttpSettings.value.mode == Some(t.xhttpMode) && s.xhttpSettings.value.path == Some(t.xhttpPath)
    ensures s.xhttpSettings.Some? ==> s.xhttpSettings.value.host == NonEmpty(t.xhttpHost)
    ensures s.tlsSettings.None? && s.realitySettings.None? && s.sockopt.None? && s.acceptProxyProtocol.None?
  {
    var base := NoStreamBlocks.(network := Some(t.network), security := Some(security));
    if t.network == "ws" then
      base.(wsSettings := Some(WsSettings(Some(t.wsPath), if t.wsHost != [] then Some(WsHeaders(Some(t.wsHost))) else None)))
    else if t.network == "grpc" then
      base.(grpcSettings := Some(GrpcSettings(Some(t.grpcServiceName), Some(t.grpcMultiMode))))
    else if t.network == "h2" then
      base.(httpSettings := Some(HttpSettings(if t.h2Host != [] then Some(TrimEach(Split(t.h2Host, ","))) else None, Some(t.h2Path))))
    else if t.network == "xhttp" then
      base.(xhttpSettings := Some(XhttpSettings(Some(t.xhttpMode), Some(t.xhttpPath), NonEmpty(t.xhttpHost))))
    else base
  }

  /** `realitySettings`: the list fields split on newlines, the optional ones only when filled in. */
  function RealityOf(r: RealityFields): (rs: RealitySettings)
    ensures rs.serverNames == Some(Entries(r.serverNames)) && rs.shortIds == Some(Entries(r.shortIds))
    ensures rs.privateKey == Some(r.privateKey) && rs.publicKey == Some(r.publicKey)
    ensures rs.minClientVer == NonEmpty(r.minClientVer) && rs.maxClientVer == NonEmpty(r.maxClientVer)
    ensures rs.maxTimeDiff == NumberIfSet(r.maxTimeDiff)
  {
    RealitySettings(Some(r.show), Some(r.dest), Some(ToNumber(r.xver)),
      Some(Entries(r.serverNames)), Some(r.privateKey), Some(r.publicKey),
      Some(Entries(r.shortIds)), Some(r.fingerprint),
      NonEmpty(r.minClientVer), NonEmpty(r.maxClientVer), NumberIfSet(r.maxTimeDiff))
  }

  /** `sockopt`: present when any socket switch is on, holding only the true TCP flags. */
  function SockoptOf(s: SocketFields): (so: Option<Sockopt>)
    ensures so.Some? <==> s.tcpFastOpen || s.tcpNoDelay || s.acceptProxyProtocol
    ensures so.Some? ==> (so.value.tcpFastOpen.Some? <==> s.tcpFastOpen) && (so.value.tcpNoDelay.Some? <==> s.tcpNoDelay)
    ensures so.Some? ==> so.value.tcpFastOpen != Some(false) && so.value.tcpNoDelay != Some(false)
  {
    if s.tcpFastOpen || s.tcpNoDelay || s.acceptProxyProtocol then
      Some(Sockopt(if s.tcpFastOpen then Some(true) else None, if s.tcpNoDelay then Some(true) else None))
    else None
  }

  /** `streamSettings`: the transport block, reality only under reality security, then the socket options. */
  function StreamOf(f: FormValues): (s: StreamSettings)
    ensures s.realitySettings.Some? <==> f.security == "reality"
    ensures s.realitySettings.Some? ==> s.realitySettings.value == RealityOf(f.reality)
    ensures s.sockopt == SockoptOf(f.sockets)
    ensures s.acceptProxyProtocol == (if f.sockets.acceptProxyProtocol then Some(true) else None)
    ensures s.network == Some(f.transport.network) && s.security == Some(f.security)
  {
    TransportOf(f.transport, f.security).(
      realitySettings := if f.security == "reality" then Some(RealityOf(f.reality)) else None,
      sockopt := SockoptOf(f.sockets),
      acceptProxyProtocol := if f.sockets.acceptProxyProtocol then Some(true) else None)
  }

  // ---------------------------------------------------------------- the record

  /** `Number(x) * 1024 * 1024 * 1024`. */
  function TimesGiB(x: JsNumber): (r: JsNumber)
    ensures x.NaN? <==> r.NaN?
    ensures x.Num? ==> r == Num(x.n * GiB)
  {
    match x
    case NaN => NaN
    case Num(n) => Num(n * GiB)
  }

  /** The submitted record: the editing inbound's id and counters when there is one. */
  function RecordOf(f: FormValues, editing: Option<Inbound>, freshId: string, dateMillis: string -> JsNumber): (r: Inbound)
    requires PortAccepted(f.general.port)
    ensures r.id == (if editing.Some? && editing.value.id != [] then editing.value.id else freshId)
    ensures Num(r.port) == ToNumber(f.general.port)
    ensures r.tag == NonEmpty(f.general.tag) && r.listen == NonEmpty(f.general.listen)
    ensures r.total == TimesGiB(ToNumber(f.general.totalTraffic))
    ensures f.general.expiryTime == [] ==> r.expiry == Num(0)
    ensures r.up == Some(if editing.Some? then CounterOrZero(editing.value.up) else 0)
    ensures r.down == Some(if editing.Some? then CounterOrZero(editing.value.down) else 0)
    ensures r.settings == Some(SettingsOf(f)) && r.streamSettings == Some(StreamOf(f))
    ensures r.sniffing.None? && r.allocate.None?
  {
    var g := f.general;
    Inbound(
      if editing.Some? && editing.value.id != [] then editing.value.id else freshId,
      g.remark, g.isEnable, ToNumber(g.port).n, g.protocol, NonEmpty(g.tag), NonEmpty(g.listen),
      Some(SettingsOf(f)), Some(StreamOf(f)), None, None,
      TimesGiB(ToNumber(g.totalTraffic)),
      if g.expiryTime != [] then dateMillis(g.expiryTime) else Num(0),
      Some(if editing.Some? then CounterOrZero(editing.value.up) else 0),
      Some(if editing.Some? then CounterOrZero(editing.value.down) else 0))
  }

  /** What `handleConfirm` submits: the record, or the first failing check. */
  function BuildInbound(f: FormValues, editing: Option<Inbound>, freshId: string, dateMillis: string -> JsNumber)
    : (r: Result<Inbound, FormError>)
    ensures r.Err? <==> FirstError(f).Some?
    ensures r.Err? ==> r.error == FirstError(f).value
    ensures r.Ok? ==> TrimJs(r.value.remark) != [] && Num(r.value.port) == ToNumber(f.general.port)
  {
    match FirstError(f)
    case Some(e) => Err(e)
    case None => Ok(RecordOf(f, editing, freshId, dateMillis))
  }

  /** The client object, built key by key. */
  method BuildClient(protocol: string, c: ClientFields) returns (client: Client)
    ensures client == ClientOf(protocol, c)
  {
    if UsesUuid(protocol) {
      client := Client(Some(c.uuid), None, None, None, None, None);
      if c.flow != [] && protocol == "vless" {
        client := client.(flow := Some(c.flow));
      }
    } else {
      client := Client(None, Some(c.password), None, None, None, None);
    }
    if c.level != [] {
      client := client.(level := Some(ToNumber(c.level)));
    }
    if c.email != [] {
      client := client.(email := Some(c.email));
    }
    if protocol == "vmess" {
      client := client.(alterId := Some(ToNumber(c.alterId)));
    }
  }

  /** The transport block, built key by key. */
  method BuildTransport(t: TransportFields, security: string) returns (stream: StreamSettings)
    ensures stream == TransportOf(t, security)
  {
    stream := NoStreamBlocks.(network := Some(t.network), security := Some(security));
    if t.network == "ws" {
      var ws := WsSettings(Some(t.wsPath), None);
      if t.wsHost != [] {
        ws := ws.(headers := Some(WsHeaders(Some(t.wsHost))));
      }
      stream := stream.(wsSettings := Some(ws));
    } else if t.network == "grpc" {
      stream := stream.(grpcSettings := Some(GrpcSettings(Some(t.grpcServiceName), Some(t.grpcMultiMode))));
    } else if t.network == "h2" {
      var http := HttpSettings(None, Some(t.h2Path));
      if t.h2Host != [] {
        http := http.(host := Some(TrimEach(Split(t.h2Host, ","))));
      }
      stream := stream.(httpSettings := Some(http));
    } else if t.network == "xhttp" {
      var xhttp := XhttpSettings(Some(t.xhttpMode), Some(t.xhttpPath), None);
      if t.xhttpHost != [] {
        xhttp := xhttp.(host := Some(t.xhttpHost));
      }
      stream := stream.(xhttpSettings := Some(xhttp));
    }
  }

  /** The reality block, built key by key. */
  method BuildReality(r: RealityFields) returns (reality: RealitySettings)
    ensures reality == RealityOf(r)
  {
    reality := RealitySettings(Some(r.show), Some(r.dest), Some(ToNumber(r.xver)),
      Some(Entries(r.serverNames)), Some(r.privateKey), Some(r.publicKey),
      Some(Entries(r.shortIds)), Some(r.fingerprint), None, None, None);
    if r.minClientVer != [] {
      reality := reality.(minClientVer := Some(r.minClientVer));
    }
    if r.maxClientVer != [] {
      reality := reality.(maxClientVer := Some(r.maxClientVer));
    }
    if r.maxTimeDiff != [] {
      reality := reality.(maxTimeDiff := Some(ToNumber(r.maxTimeDiff)));
    }
  }

  /** The `settings` section of `handleConfirm`: the protocol's credential check, then the object. */
  method BuildSettings(f: FormValues) returns (r: Result<Settings, FormError>)
    ensures r.Err? <==> !CredentialPresent(f)
    ensures r.Err? ==> r.error == (if UsesUuid(f.general.protocol) then UuidEmpty else PasswordEmpty)
    ensures r.Ok? ==> r.value == SettingsOf(f)
  {
    var protocol := f.general.protocol;
    var settings := EmptySettings;
    if protocol == "vless" || protocol == "vmess" {
      if f.client.uuid == [] {
        return Err(UuidEmpty);
      }
      var client := BuildClient(protocol, f.client);
      settings := settings.(clients := Some([client]));
      if protocol == "vless" {
        settings := settings.(decryption := Some(f.proto.decryption));
      }
    } else if protocol == "trojan" {
      if f.client.password == [] {
        return Err(PasswordEmpty);
      }
      var client := BuildClient(protocol, f.client);
      settings := settings.(clients := Some([client]));
    } else if protocol == "shadowsocks" {
      if f.proto.ssPassword == [] {
        return Err(PasswordEmpty);
      }
      settings := Settings(None, None, Some(f.proto.ssMethod), Some(f.proto.ssPassword), Some(f.proto.ssNetwork));
    }
    r := Ok(settings);
  }

  /** The `streamSettings` section of `handleConfirm`: the reality key check, then the object. */
  method BuildStream(f: FormValues) returns (r: Result<StreamSettings, FormError>)
    ensures r.Err? <==> f.security == "reality" && f.reality.privateKey == []
    ensures r.Err? ==> r.error == RealityPrivateKeyEmpty
    ensures r.Ok? ==> r.value == StreamOf(f)
  {
    var stream := BuildTransport(f.transport, f.security);
    if f.security == "reality" {
      if f.reality.privateKey == [] {
        return Err(RealityPrivateKeyEmpty);
      }
      var reality := BuildReality(f.reality);
      stream := stream.(realitySettings := Some(reality));
    }
    var s := f.sockets;
    if s.tcpFastOpen || s.tcpNoDelay || s.acceptProxyProtocol {
      var sockopt := Sockopt(None, None);
      if s.tcpFastOpen {
        sockopt := sockopt.(tcpFastOpen := Some(true));
      }
      if s.tcpNoDelay {
        sockopt := sockopt.(tcpNoDelay := Some(true));
      }
      stream := stream.(sockopt := Some(sockopt));
    }
    if s.acceptProxyProtocol {
      stream := stream.(acceptProxyProtocol := Some(true));
    }
    r := Ok(stream);
  }

  /**
   * `handleConfirm` up to submission: the checks with their early returns in
   * the dialog's order, the settings and stream objects, then the record.
   */
  method BuildPayload(f: FormValues, editing: Option<Inbound>, freshId: string, dateMillis: string -> JsNumber)
    returns (r: Result<Inbound, FormError>)
    ensures r == BuildInbound(f, editing, freshId, dateMillis)
  {
    var g := f.general;
    if TrimJs(g.remark) == [] {
      return Err(RemarkEmpty);
    }
    if g.port == [] || ToNumber(g.port).NaN? {
      return Err(PortInvalid);
    }
    var settings := BuildSettings(f);
    if settings.Err? {
      return Err(settings.error);
    }
    var stream := BuildStream(f);
    if stream.Err? {
      return Err(stream.error);
    }
    var id := if editing.Some? && editing.value.id != [] then editing.value.id else freshId;
    var expiry := if g.expiryTime != [] then dateMillis(g.expiryTime) else Num(0);
    var up := if editing.Some? then CounterOrZero(editing.value.up) else 0;
    var down := if editing.Some? then CounterOrZero(editing.value.down) else 0;
    r := Ok(Inbound(id, g.remark, g.isEnable, ToNumber(g.port).n, g.protocol, NonEmpty(g.tag), NonEmpty(g.listen),
      Some(settings.value), Some(stream.value), None, None, TimesGiB(ToNumber(g.totalTraffic)), expiry, Some(up), Some(down)));
  }

  // ---------------------------------------------------------------- properties of the builder

  /** A freshly reset form is refused until a remark is typed. */
  lemma ResetFormNeedsRemark(f: FormValues, port: int, uuid: string)
    ensures FirstError(ResetValues(f, port, uuid)) == Some(RemarkEmpty)
  {
    assert ResetValues(f, port, uuid).general.remark == [];
  }

  /** "0" as the level still sends `level: 0`: only an empty level is left out. */
  lemma LevelZeroSent(protocol: string, c: ClientFields)
    requires c.level == "0"
    ensures ClientOf(protocol, c).level == Some(Num(0))
  {
    ToNumberOfDigits(c.level);
  }

  /** With only the PROXY-protocol switch on, `sockopt` is present and empty. */
  lemma ProxyProtocolOnlySockopt(f: FormValues)
    requires f.sockets == SocketFields(true, false, false)
    ensures StreamOf(f).sockopt == Some(Sockopt(None, None)) && StreamOf(f).acceptProxyProtocol == Some(true)
  {
  }

  /** A digits-only traffic limit (the only text the field accepts) always gives a byte count. */
  lemma TotalOfDigits(text: string)
    requires AllDigits(text)
    ensures TimesGiB(ToNumber(text)) == Num(DigitsValue(text) * GiB)
  {
    if text != [] {
      ToNumberOfDigits(text);
    }
  }

  /** "5" GiB is 5368709120 bytes. */
  lemma FiveGiB(text: string)
    requires text == "5"
    ensures TimesGiB(ToNumber(text)) == Num(5368709120)
  {
    TotalOfDigits(text);
  }

  /** A blank second entry is dropped and a non-blank first one kept. */
  lemma NonBlankPair(a: string, b: string)
    requires !Blank(a) && Blank(b)
    ensures NonBlank([a, b]) == [a]
  {
    var pair := [a, b];
    assert pair[1..] == [b] && [b][1..] == [];
  }

  /** Entries are kept as typed: surrounding spaces survive, blank lines go. */
  lemma EntriesKeepSpaces(a: string, b: string)
    requires '\n' !in a && '\n' !in b && !Blank(a) && Blank(b)
    ensures Entries(a + "\n" + b) == [a]
  {
    var parts := [a, b];
    assert Join(parts, "\n") == a + "\n" + b by {
      assert parts[1..] == [b];
    }
    SplitJoinChar(parts, '\n');
    NonBlankPair(a, b);
  }

  // ---------------------------------------------------------------- loading an inbound for editing

  /** `String(x || 0)` for an optional number. */
  function NumberOrZeroText(x: Option<JsNumber>): (t: string)
    ensures t != []
    ensures x.None? || !Truthy(x.value) ==> t == "0"
  {
    if x.Some? && Truthy(x.value) then NumberToString(x.value) else "0"
  }

  /** `String((total || 0) / 1024³)`; a non-whole number of GiB is rendered by `fractionText`. */
  function TrafficText(total: JsNumber, fractionText: int -> string): (t: string)
    ensures total.Num? && total.n != 0 && total.n % GiB == 0 ==> t == IntToDecimal(total.n / GiB)
    ensures !Truthy(total) ==> t == "0"
  {
    if !Truthy(total) then "0"
    else if total.n % GiB == 0 then IntToDecimal(total.n / GiB)
    else fractionText(total.n)
  }

  /** The basic section of the edited inbound. */
  function LoadGeneral(node: Inbound, isoDate: int -> string, fractionText: int -> string): (g: General)
    ensures g.remark == node.remark && g.isEnable == node.enable
    ensures g.protocol == StringOr(Some(node.protocol), "vless")
    ensures g.port == (if node.port != 0 then IntToDecimal(node.port) else "")
    ensures g.totalTraffic == TrafficText(node.total, fractionText)
    ensures !Truthy(node.expiry) ==> g.expiryTime == []
  {
    General(node.remark, node.enable, StringOr(Some(node.protocol), "vless"),
      StringOr(node.tag, ""), StringOr(node.listen, ""),
      if node.port != 0 then IntToDecimal(node.port) else "",
      TrafficText(node.total, fractionText),
      if Truthy(node.expiry) then isoDate(node.expiry.n) else "")
  }

  /** The credential fields of the edited inbound's first client. */
  function LoadClient(c: Client, freshUuid: string): (r: ClientFields)
    ensures r.uuid == StringOr(c.id, freshUuid) && r.password == StringOr(c.password, "")
    ensures r.level == NumberOrZeroText(c.level) && r.alterId == NumberOrZeroText(c.alterId)
  {
    ClientFields(StringOr(c.id, freshUuid), StringOr(c.flow, ""), NumberOrZeroText(c.level),
      StringOr(c.email, ""), NumberOrZeroText(c.alterId), StringOr(c.password, ""))
  }

  /** The protocol-wide fields; the shadowsocks ones only for a shadowsocks inbound. */
  function LoadProtocol(p: ProtocolFields, protocol: string, s: Settings): (r: ProtocolFields)
    ensures r.decryption == StringOr(s.decryption, "none")
    ensures protocol != "shadowsocks" ==> r == p.(decryption := r.decryption)
    ensures protocol == "shadowsocks" ==> r.ssPassword == StringOr(s.password, "")
  {
    var withDecryption := p.(decryption := StringOr(s.decryption, "none"));
    if protocol == "shadowsocks" then
      withDecryption.(ssMethod := StringOr(s.ssMethod, DefaultSsMethod), ssPassword := StringOr(s.password, ""),
                      ssNetwork := StringOr(s.network, DefaultSsNetwork))
    else withDecryption
  }

  /** `list?.join(sep) || d`. */
  function JoinedOr(xs: Option<seq<string>>, sep: string, d: string): (r: string)
    ensures xs.None? ==> r == d
    ensures xs.Some? ==> r == StringOr(Some(Join(xs.value, sep)), d)
  {
    if xs.Some? then StringOr(Some(Join(xs.value, sep)), d) else d
  }

  /** The transport fields; those of a block the inbound lacks keep their values. */
  function LoadTransport(t: TransportFields, st: StreamSettings): (r: TransportFields)
    ensures r.network == StringOr(st.network, "tcp")
    ensures st.wsSettings.None? ==> r.wsPath == t.wsPath && r.wsHost == t.wsHost
    ensures st.httpSettings.None? ==> r.h2Host == t.h2Host && r.h2Path == t.h2Path
    ensures st.httpSettings.Some? ==> r.h2Host == JoinedOr(st.httpSettings.value.host, ",", "")
  {
    var t0 := t.(network := StringOr(st.network, "tcp"));
    var t1 := match st.wsSettings
      case None => t0
      case Some(ws) =>
        t0.(wsPath := StringOr(ws.path, "/"), wsHost := if ws.headers.Some? then StringOr(ws.headers.value.host, "") else "");
    var t2 := match st.grpcSettings
      case None => t1
      case Some(gs) => t1.(grpcServiceName := StringOr(gs.serviceName, ""), grpcMultiMode := gs.multiMode.GetOr(false));
    var t3 := match st.httpSettings
      case None => t2
      case Some(hs) => t2.(h2Host := JoinedOr(hs.host, ",", ""), h2Path := StringOr(hs.path, "/"));
    match st.xhttpSettings
    case None => t3
    case Some(xs) => t3.(xhttpMode := StringOr(xs.mode, "auto"), xhttpPath := StringOr(xs.path, "/"), xhttpHost := StringOr(xs.host, ""))
  }

  /** The reality fields of an inbound that has a reality block. */
  function LoadReality(rs: RealitySettings): (r: RealityFields)
    ensures r.serverNames == JoinedOr(rs.serverNames, "\n", DefaultServerName)
    ensures r.shortIds == JoinedOr(rs.shortIds, "\n", "")
    ensures r.privateKey == StringOr(rs.privateKey, "")
  {
    RealityFields(rs.show.GetOr(false), StringOr(rs.dest, DefaultDest), NumberOrZeroText(rs.xver),
      StringOr(rs.fingerprint, "chrome"), JoinedOr(rs.serverNames, "\n", DefaultServerName),
      StringOr(rs.privateKey, ""), StringOr(rs.publicKey, ""), JoinedOr(rs.shortIds, "\n", ""),
      StringOr(rs.minClientVer, ""), StringOr(rs.maxClientVer, ""),
      if rs.maxTimeDiff.Some? && Truthy(rs.maxTimeDiff.value) then NumberToString(rs.maxTimeDiff.value) else "")
  }

  /** The socket switches: a missing flag in a present `sockopt` reads as on. */
  function LoadSockets(s: SocketFields, st: StreamSettings): (r: SocketFields)
    ensures r.acceptProxyProtocol == st.acceptProxyProtocol.GetOr(false)
    ensures st.sockopt.None? ==> r.tcpFastOpen == s.tcpFastOpen && r.tcpNoDelay == s.tcpNoDelay
    ensures st.sockopt.Some? ==> r.tcpFastOpen == st.sockopt.value.tcpFastOpen.GetOr(true)
    ensures st.sockopt.Some? ==> r.tcpNoDelay == st.sockopt.value.tcpNoDelay.GetOr(true)
  {
    match st.sockopt
    case None => s.(acceptProxyProtocol := st.acceptProxyProtocol.GetOr(false))
    case Some(so) => SocketFields(st.acceptProxyProtocol.GetOr(false), so.tcpFastOpen.GetOr(true), so.tcpNoDelay.GetOr(true))
  }

  /**
   * The form after loading `node`: the basic section always, the client and
   * protocol fields when it has settings, the rest when it has stream settings;
   * every other field keeps its value.
   */
  function Rehydrated(f: FormValues, node: Inbound, freshUuid: string, isoDate: int -> string, fractionText: int -> string)
    : (g: FormValues)
    ensures g.general == LoadGeneral(node, isoDate, fractionText)
    ensures FirstClient(node.settings).None? ==> g.client == f.client
    ensures FirstClient(node.settings).Some? ==> g.client == LoadClient(FirstClient(node.settings).value, freshUuid)
    ensures node.streamSettings.None? ==>
      g.transport == f.transport && g.security == f.security && g.reality == f.reality && g.sockets == f.sockets
    ensures node.streamSettings.Some? && node.streamSettings.value.realitySettings.None? ==> g.reality == f.reality
  {
    var client := match FirstClient(node.settings)
      case None => f.client
      case Some(c) => LoadClient(c, freshUuid);
    var proto := if node.settings.Some? then LoadProtocol(f.proto, node.protocol, node.settings.value) else f.proto;
    var loaded := f.(general := LoadGeneral(node, isoDate, fractionText), client := client, proto := proto);
    match node.streamSettings
    case None => loaded
    case Some(st) =>
      loaded.(transport := LoadTransport(f.transport, st), security := StringOr(st.security, "none"),
              reality := if st.realitySettings.Some? then LoadReality(st.realitySettings.value) else f.reality,
              sockets := LoadSockets(f.sockets, st))
  }

  // ---------------------------------------------------------------- loading, then building again

  /** A non-zero port is shown as its decimal text and submitted as the same number. */
  lemma PortRoundTrip(port: int)
    requires port != 0
    ensures PortAccepted(IntToDecimal(port)) && ToNumber(IntToDecimal(port)) == Num(port)
  {
    ToNumberOfDecimal(port);
  }

  /** An inbound with port 0 reloads with an empty port field, which the checks refuse. */
  lemma PortZeroRefused(f: FormValues, node: Inbound, uuid: string, isoDate: int -> string, fractionText: int -> string)
    requires node.port == 0 && TrimJs(node.remark) != []
    ensures FirstError(Rehydrated(f, node, uuid, isoDate, fractionText)) == Some(PortInvalid)
  {
    var g := Rehydrated(f, node, uuid, isoDate, fractionText);
    assert g.general.port == [] && g.general.remark == node.remark;
  }

  lemma WholeGiB(k: int)
    ensures (k * GiB) % GiB == 0 && (k * GiB) / GiB == k
  {
  }

  /** A whole number of GiB is shown as that number and submitted as the same byte count. */
  lemma TotalRoundTrip(k: int, fractionText: int -> string)
    ensures TimesGiB(ToNumber(TrafficText(Num(k * GiB), fractionText))) == Num(k * GiB)
  {
    if k == 0 {
      assert TrafficText(Num(k * GiB), fractionText) == "0";
      ToNumberOfDigits("0");
    } else {
      WholeGiB(k);
      assert TrafficText(Num(k * GiB), fractionText) == IntToDecimal(k);
      ToNumberOfDecimal(k);
    }
  }

  /** A level or alterId loads as its decimal text, and a missing or zero one as "0"; both send the number. */
  lemma LevelRoundTrip(x: Option<JsNumber>)
    requires x.None? || x.value.Num?
    ensures NumberIfSet(NumberOrZeroText(x)) == Some(if x.Some? then x.value else Num(0))
  {
    if x.Some? && Truthy(x.value) {
      ToNumberOfDecimal(x.value.n);
    } else {
      ToNumberOfDigits("0");
    }
  }

  /** Joining non-empty entries never gives the empty text. */
  lemma JoinNonEmpty(xs: seq<string>, sep: string)
    requires xs != [] && xs[0] != []
    ensures Join(xs, sep) != []
  {
    if |xs| > 1 {
      assert Join(xs, sep)[0] == xs[0][0];
    }
  }

  /** Server names and short ids joined with newlines on load come back as the same list. */
  lemma EntriesRoundTrip(xs: seq<string>)
    requires xs != []
    requires forall i :: 0 <= i < |xs| ==> '\n' !in xs[i] && !Blank(xs[i])
    ensures Entries(JoinedOr(Some(xs), "\n", "")) == xs
  {
    assert !Blank(xs[0]);
    JoinNonEmpty(xs, "\n");
    SplitJoinChar(xs, '\n');
  }

  /** h2 hosts joined with commas on load are split and trimmed back into the same list. */
  lemma HostsRoundTrip(hs: seq<string>)
    requires hs != [] && hs[0] != []
    requires forall i :: 0 <= i < |hs| ==> ',' !in hs[i] && TrimJs(hs[i]) == hs[i]
    ensures TrimEach(Split(JoinedOr(Some(hs), ",", ""), ",")) == hs
  {
    JoinNonEmpty(hs, ",");
    var joined := Join(hs, ",");
    assert JoinedOr(Some(hs), ",", "") == joined;
    SplitJoinChar(hs, ',');
    assert Split(joined, ",") == hs;
  }

  /** Short ids: 4 bytes as 8 lower-case hex digits, read back as the same bytes. */
  function ShortId(bs: seq<byte>): (id: string)
    requires |bs| == 4
    ensures |id| == 8 && forall i :: 0 <= i < 8 ==> IsLowerHexDigit(id[i])
    ensures LowerHexToBytes(id) == Some(bs)
  {
    LowerHexRoundTrip(bs);
    BytesToLowerHex(bs)
  }

  /** `Math.floor(Math.random() * 256)` for each of the four bytes when the platform has no crypto source. */
  method FallbackBytes(randoms: seq<real>) returns (bs: seq<byte>)
    requires |randoms| == 4 && forall i :: 0 <= i < 4 ==> 0.0 <= randoms[i] < 1.0
    ensures |bs| == 4 && forall i :: 0 <= i < 4 ==> bs[i] == (randoms[i] * 256.0).Floor
  {
    bs := [];
    var i := 0;
    while i < 4
      invariant 0 <= i <= 4 && |bs| == i
      invariant forall j :: 0 <= j < i ==> bs[j] == (randoms[j] * 256.0).Floor
    {
      var b := (randoms[i] * 256.0).Floor;
      bs := bs + [b];
      i := i + 1;
    }
  }

  // ---------------------------------------------------------------- the form state

  class Form {
    var values: FormValues

    constructor(uuid: string)
      ensures values == InitialValues(uuid)
    {
      values := InitialValues(uuid);
    }

    method ResetForm(r: real, uuid: string)
      requires 0.0 <= r < 1.0
      modifies this
      ensures values == ResetValues(old(values), RandomPort(r), uuid)
    {
      values := ResetValues(values, RandomPort(r), uuid);
    }

    /** The open effect: load the edited inbound, reset for a new one, nothing while closed. */
    method OnOpen(isOpen: bool, editing: Option<Inbound>, r: real, uuid: string,
                  isoDate: int -> string, fractionText: int -> string)
      requires 0.0 <= r < 1.0
      modifies this
      ensures isOpen && editing.Some? ==> values == Rehydrated(old(values), editing.value, uuid, isoDate, fractionText)
      ensures isOpen && editing.None? ==> values == ResetValues(old(values), RandomPort(r), uuid)
      ensures !isOpen ==> values == old(values)
    {
      if isOpen && editing.Some? {
        values := Rehydrated(values, editing.value, uuid, isoDate, fractionText);
      } else if isOpen {
        ResetForm(r, uuid);
      }
    }

    method SetSecurity(security: string)
      modifies this
      ensures values == old(values).(security := security)
    {
      values := values.(security := security);
    }

    method SetRealityShortIds(ids: string)
      modifies this
      ensures values == old(values).(reality := old(values).reality.(shortIds := ids))
    {
      values := values.(reality := values.reality.(shortIds := ids));
    }

    method SetRealityKeys(privateKey: string, publicKey: string)
      modifies this
      ensures values == old(values).(reality := old(values).reality.(privateKey := privateKey, publicKey := publicKey))
    {
      values := values.(reality := values.reality.(privateKey := privateKey, publicKey := publicKey));
    }

    method SetTotalTraffic(text: string)
      modifies this
      ensures values == old(values).(general := old(values).general.(totalTraffic := text))
    {
      values := values.(general := values.general.(totalTraffic := text));
    }
  }
}
