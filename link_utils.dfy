/**
 * The client's share-link encoder: an inbound record and a server address
 * become a `vless://` or `trojan://` URI whose query is a `URLSearchParams`
 * list and whose fragment is the `encodeURIComponent` of the remark.
 *
 * The query list is built by successive `set` calls, exactly as the encoder
 * does; `VlessQuery` and `TrojanQuery` give the same lists declaratively,
 * and `ParseShareLink` takes a link apart again.
 */
module LinkUtils {
  import opened Wrappers
  import opened Text
  import opened Encoding
  import opened Inbound

  type Params = seq<(string, string)>

  // ---------------------------------------------------------------- URLSearchParams

  predicate HasKey(p: Params, k: string) { exists i :: 0 <= i < |p| && p[i].0 == k }

  /** `params.get(k)`: the value of the first pair named `k`. */
  function Lookup(p: Params, k: string): (r: Option<string>)
    ensures r.None? <==> !HasKey(p, k)
    decreases |p|
  {
    if p == [] then None
    else if p[0].0 == k then Some(p[0].1)
    else
      var r := Lookup(p[1..], k);
      assert HasKey(p, k) <==> HasKey(p[1..], k) by {
        if HasKey(p, k) {
          var i :| 0 <= i < |p| && p[i].0 == k;
          assert p[1..][i - 1].0 == k;
        }
        if HasKey(p[1..], k) {
          var i :| 0 <= i < |p[1..]| && p[1..][i].0 == k;
          assert p[i + 1].0 == k;
        }
      }
      r
  }

  /** Every pair not named `k`, in order. */
  function RemoveKey(p: Params, k: string): (r: Params)
    ensures !HasKey(r, k)
    ensures |r| <= |p|
    decreases |p|
  {
    if p == [] then []
    else if p[0].0 == k then RemoveKey(p[1..], k)
    else [p[0]] + RemoveKey(p[1..], k)
  }

  /**
   * `params.set(k, v)` (WHATWG URL Standard, section 6.2): the first pair named
   * `k` takes the value `v` and the other pairs named `k` are removed; with no
   * such pair, `(k, v)` is appended.
   */
  function SetParam(p: Params, k: string, v: string): (r: Params)
    ensures Lookup(r, k) == Some(v)
    ensures !HasKey(p, k) ==> r == p + [(k, v)]
    decreases |p|
  {
    if !HasKey(p, k) then
      LookupAppended(p, k, v);
      p + [(k, v)]
    else if p[0].0 == k then [(k, v)] + RemoveKey(p[1..], k)
    else
      assert HasKey(p[1..], k) by {
        var i :| 0 <= i < |p| && p[i].0 == k;
        assert p[1..][i - 1].0 == k;
      }
      [p[0]] + SetParam(p[1..], k, v)
  }

  lemma {:induction false} LookupAppended(p: Params, k: string, v: string)
    requires !HasKey(p, k)
    ensures Lookup(p + [(k, v)], k) == Some(v)
    decreases |p|
  {
    if p != [] {
      assert (p + [(k, v)])[1..] == p[1..] + [(k, v)];
      assert !HasKey(p[1..], k) by {
        forall i | 0 <= i < |p[1..]| ensures p[1..][i].0 != k {
          assert p[1..][i] == p[i + 1];
        }
      }
      LookupAppended(p[1..], k, v);
    }
  }

  /** `set` leaves every other name's value as it was. */
  lemma {:induction false} SetParamOtherKeys(p: Params, k: string, v: string, k2: string)
    requires k2 != k
    ensures Lookup(SetParam(p, k, v), k2) == Lookup(p, k2)
    decreases |p|
  {
    if !HasKey(p, k) {
      LookupSkipsAppended(p, k, v, k2);
    } else if p[0].0 == k {
      LookupRemoved(p[1..], k, k2);
    } else {
      assert HasKey(p[1..], k) by {
        var i :| 0 <= i < |p| && p[i].0 == k;
        assert p[1..][i - 1].0 == k;
      }
      SetParamOtherKeys(p[1..], k, v, k2);
    }
  }

  lemma {:induction false} LookupSkipsAppended(p: Params, k: string, v: string, k2: string)
    requires k2 != k
    ensures Lookup(p + [(k, v)], k2) == Lookup(p, k2)
    decreases |p|
  {
    if p != [] {
      assert (p + [(k, v)])[1..] == p[1..] + [(k, v)];
      LookupSkipsAppended(p[1..], k, v, k2);
    }
  }

  lemma {:induction false} LookupRemoved(p: Params, k: string, k2: string)
    requires k2 != k
    ensures Lookup(RemoveKey(p, k), k2) == Lookup(p, k2)
    decreases |p|
  {
    if p != [] {
      LookupRemoved(p[1..], k, k2);
    }
  }

  // ---------------------------------------------------------------- the query lists, as the encoder builds them

  /** `type` and `security`, then `flow` only when the first client has one. */
  function SetVlessHead(s: StreamSettings, flow: string): Params {
    var p := SetParam(SetParam([], "type", StringOr(s.network, "tcp")), "security", StringOr(s.security, "none"));
    if flow != "" then SetParam(p, "flow", flow) else p
  }

  function TlsServerName(ss: StreamSettings): string {
    StringOr(if ss.tlsSettings.Some? then ss.tlsSettings.value.serverName else None, "")
  }

  /** Reality adds sni, fp, pbk and sid (only when its settings exist); tls adds sni. */
  function SetVlessSecurity(p: Params, s: StreamSettings): Params {
    if s.security == Some("reality") then
      if s.realitySettings.Some? then
        var rs := s.realitySettings.value;
        var q0 := SetParam(p, "sni", StringOr(FirstOf(rs.serverNames), ""));
        var q1 := SetParam(q0, "fp", StringOr(rs.fingerprint, "chrome"));
        var q2 := SetParam(q1, "pbk", StringOr(rs.publicKey, ""));
        SetParam(q2, "sid", StringOr(FirstOf(rs.shortIds), ""))
      else p
    else if s.security == Some("tls") then SetParam(p, "sni", TlsServerName(s))
    else p
  }

  /** The transport parameters both protocols share: ws path and host, or the grpc service name. */
  function SetTransport(p: Params, ss: StreamSettings): Params {
    if ss.network == Some("ws") then
      var ws := ss.wsSettings;
      var path := if ws.Some? then ws.value.path else None;
      var host := if ws.Some? && ws.value.headers.Some? then ws.value.headers.value.host else None;
      SetParam(SetParam(p, "path", StringOr(path, "/")), "host", StringOr(host, ""))
    else if ss.network == Some("grpc") then
      var name := if ss.grpcSettings.Some? then ss.grpcSettings.value.serviceName else None;
      SetParam(p, "serviceName", StringOr(name, ""))
    else p
  }

  /** The query of a vless link: `set` calls in source order. */
  function VlessParams(ss: Option<StreamSettings>, flow: string): Params {
    if ss.None? then []
    else SetTransport(SetVlessSecurity(SetVlessHead(ss.value, flow), ss.value), ss.value)
  }

  /** `security` (default "tls"), `type`, and `sni` from the TLS settings whatever the security. */
  function SetTrojanHead(s: StreamSettings): Params {
    SetParam(SetParam(SetParam([], "security", StringOr(s.security, "tls")), "type", StringOr(s.network, "tcp")),
             "sni", TlsServerName(s))
  }

  /** The query of a trojan link: `set` calls in source order. */
  function TrojanParams(ss: Option<StreamSettings>): Params {
    if ss.None? then [] else SetTransport(SetTrojanHead(ss.value), ss.value)
  }

  /** The fixed layout both link kinds share. */
  function LinkText(scheme: string, credential: string, serverAddr: string, port: int, query: Params, remark: string): string {
    scheme + "://" + credential + "@" + serverAddr + ":" + IntToDecimal(port) + "?" + SerializeQuery(query)
      + "#" + EncodeUriComponent(remark)
  }

  /** A link opens with its scheme and "://". */
  lemma LinkTextScheme(scheme: string, credential: string, serverAddr: string, port: int, query: Params, remark: string)
    ensures StartsWith(LinkText(scheme, credential, serverAddr, port, query, remark), scheme + "://")
  {
    var a, b, c, d := credential + "@" + serverAddr, ":" + IntToDecimal(port), "?" + SerializeQuery(query),
      "#" + EncodeUriComponent(remark);
    PrefixOfConcat(scheme + "://", a + b + c + d);
  }

  lemma PrefixOfConcat(p: string, t: string)
    ensures StartsWith(p + t, p)
  {
    assert (p + t)[..|p|] == p;
  }

  /**
   * `generateShareLink`: credential, server address, decimal port, query and
   * encoded remark in the fixed URI layout; any protocol other than vless and
   * trojan gives the empty string.
   */
  function GenerateShareLink(ib: Inbound, serverAddr: string): (r: string)
    ensures r == "" <==> ib.protocol != "vless" && ib.protocol != "trojan"
    ensures r != "" ==> StartsWith(r, ib.protocol + "://")
  {
    var client := FirstClient(ib.settings);
    if ib.protocol == "vless" then
      var uuid := StringOr(if client.Some? then client.value.id else None, "");
      var flow := StringOr(if client.Some? then client.value.flow else None, "");
      LinkTextScheme("vless", uuid, serverAddr, ib.port, VlessParams(ib.streamSettings, flow), ib.remark);
      LinkText("vless", uuid, serverAddr, ib.port, VlessParams(ib.streamSettings, flow), ib.remark)
    else if ib.protocol == "trojan" then
      var password := StringOr(if client.Some? then client.value.password else None, "");
      LinkTextScheme("trojan", password, serverAddr, ib.port, TrojanParams(ib.streamSettings), ib.remark);
      LinkText("trojan", password, serverAddr, ib.port, TrojanParams(ib.streamSettings), ib.remark)
    else ""
  }

  /** The credential the link carries: the first client's id (vless) or password (trojan). */
  function LinkCredential(ib: Inbound): string {
    var client := FirstClient(ib.settings);
    if ib.protocol == "vless" then StringOr(if client.Some? then client.value.id else None, "")
    else StringOr(if client.Some? then client.value.password else None, "")
  }

  function LinkFlow(ib: Inbound): string {
    var client := FirstClient(ib.settings);
    StringOr(if client.Some? then client.value.flow else None, "")
  }

  // ---------------------------------------------------------------- the same lists, declaratively

  function TransportPairs(ss: StreamSettings): Params {
    if ss.network == Some("ws") then
      var ws := ss.wsSettings;
      var path := if ws.Some? then ws.value.path else None;
      var host := if ws.Some? && ws.value.headers.Some? then ws.value.headers.value.host else None;
      [("path", StringOr(path, "/")), ("host", StringOr(host, ""))]
    else if ss.network == Some("grpc") then
      [("serviceName", StringOr(if ss.grpcSettings.Some? then ss.grpcSettings.value.serviceName else None, ""))]
    else []
  }

  function VlessSecurityPairs(ss: StreamSettings): Params {
    if ss.security == Some("reality") then
      if ss.realitySettings.Some? then
        var rs := ss.realitySettings.value;
        [("sni", StringOr(FirstOf(rs.serverNames), "")), ("fp", StringOr(rs.fingerprint, "chrome")),
         ("pbk", StringOr(rs.publicKey, "")), ("sid", StringOr(FirstOf(rs.shortIds), ""))]
      else []
    else if ss.security == Some("tls") then [("sni", TlsServerName(ss))]
    else []
  }

  function VlessHeadPairs(s: StreamSettings, flow: string): Params {
    [("type", StringOr(s.network, "tcp")), ("security", StringOr(s.security, "none"))]
      + (if flow != "" then [("flow", flow)] else [])
  }

  /** type, security, flow (only when set), the security block, the transport block. */
  function VlessQuery(ss: Option<StreamSettings>, flow: string): Params {
    if ss.None? then []
    else VlessHeadPairs(ss.value, flow) + VlessSecurityPairs(ss.value) + TransportPairs(ss.value)
  }

  function TrojanHeadPairs(s: StreamSettings): Params {
    [("security", StringOr(s.security, "tls")), ("type", StringOr(s.network, "tcp")), ("sni", TlsServerName(s))]
  }

  /** security, type, sni, then the transport block. */
  function TrojanQuery(ss: Option<StreamSettings>): Params {
    if ss.None? then [] else TrojanHeadPairs(ss.value) + TransportPairs(ss.value)
  }

  /** Every name in `p` is one of `ks`. */
  predicate KeysAmong(p: Params, ks: seq<string>) {
    forall i :: 0 <= i < |p| ==> p[i].0 in ks
  }

  lemma FreshKey(p: Params, ks: seq<string>, k: string)
    requires KeysAmong(p, ks) && k !in ks
    ensures !HasKey(p, k)
  {
  }

  lemma AppendFresh(p: Params, ks: seq<string>, k: string, v: string)
    requires KeysAmong(p, ks) && k !in ks
    ensures SetParam(p, k, v) == p + [(k, v)]
    ensures KeysAmong(p + [(k, v)], ks + [k])
  {
    FreshKey(p, ks, k);
  }

  lemma HeadAppends(s: StreamSettings, flow: string)
    ensures SetVlessHead(s, flow) == VlessHeadPairs(s, flow)
    ensures KeysAmong(SetVlessHead(s, flow), ["type", "security", "flow"])
  {
    var t, sec := StringOr(s.network, "tcp"), StringOr(s.security, "none");
    AppendFresh([], [], "type", t);
    AppendFresh([("type", t)], ["type"], "security", sec);
    if flow != "" {
      AppendFresh([("type", t), ("security", sec)], ["type", "security"], "flow", flow);
    }
  }

  lemma RealityAppends(p: Params, rs: RealitySettings)
    requires KeysAmong(p, ["type", "security", "flow"])
    ensures SetParam(SetParam(SetParam(SetParam(p, "sni", StringOr(FirstOf(rs.serverNames), "")),
              "fp", StringOr(rs.fingerprint, "chrome")), "pbk", StringOr(rs.publicKey, "")),
              "sid", StringOr(FirstOf(rs.shortIds), ""))
      == p + [("sni", StringOr(FirstOf(rs.serverNames), "")), ("fp", StringOr(rs.fingerprint, "chrome")),
              ("pbk", StringOr(rs.publicKey, "")), ("sid", StringOr(FirstOf(rs.shortIds), ""))]
  {
    var ks := ["type", "security", "flow"];
    var sni, fp := StringOr(FirstOf(rs.serverNames), ""), StringOr(rs.fingerprint, "chrome");
    var pbk, sid := StringOr(rs.publicKey, ""), StringOr(FirstOf(rs.shortIds), "");
    AppendFresh(p, ks, "sni", sni);
    var q0 := p + [("sni", sni)];
    AppendFresh(q0, ks + ["sni"], "fp", fp);
    var q1 := q0 + [("fp", fp)];
    AppendFresh(q1, ks + ["sni"] + ["fp"], "pbk", pbk);
    var q2 := q1 + [("pbk", pbk)];
    AppendFresh(q2, ks + ["sni"] + ["fp"] + ["pbk"], "sid", sid);
    assert q2 + [("sid", sid)] == p + [("sni", sni), ("fp", fp), ("pbk", pbk), ("sid", sid)];
  }

  lemma SecurityAppends(p: Params, s: StreamSettings)
    requires KeysAmong(p, ["type", "security", "flow"])
    ensures SetVlessSecurity(p, s) == p + VlessSecurityPairs(s)
    ensures KeysAmong(SetVlessSecurity(p, s), ["type", "security", "flow", "sni", "fp", "pbk", "sid"])
  {
    if s.security == Some("reality") && s.realitySettings.Some? {
      RealityAppends(p, s.realitySettings.value);
    } else if s.security == Some("tls") {
      AppendFresh(p, ["type", "security", "flow"], "sni", TlsServerName(s));
    }
  }

  lemma TransportAppends(p: Params, ks: seq<string>, s: StreamSettings)
    requires KeysAmong(p, ks) && "path" !in ks && "host" !in ks && "serviceName" !in ks
    ensures SetTransport(p, s) == p + TransportPairs(s)
  {
    if s.network == Some("ws") {
      var ws := s.wsSettings;
      var path := StringOr(if ws.Some? then ws.value.path else None, "/");
      var host := StringOr(if ws.Some? && ws.value.headers.Some? then ws.value.headers.value.host else None, "");
      AppendFresh(p, ks, "path", path);
      AppendFresh(p + [("path", path)], ks + ["path"], "host", host);
    } else if s.network == Some("grpc") {
      AppendFresh(p, ks, "serviceName",
        StringOr(if s.grpcSettings.Some? then s.grpcSettings.value.serviceName else None, ""));
    }
  }

  /** The encoder never sets the same name twice, so every `set` appends: the list is the declarative one. */
  lemma VlessParamsAreQuery(ss: Option<StreamSettings>, flow: string)
    ensures VlessParams(ss, flow) == VlessQuery(ss, flow)
  {
    if ss.Some? {
      var s := ss.value;
      HeadAppends(s, flow);
      var head := SetVlessHead(s, flow);
      SecurityAppends(head, s);
      TransportAppends(SetVlessSecurity(head, s), ["type", "security", "flow", "sni", "fp", "pbk", "sid"], s);
    }
  }

  lemma TrojanHeadAppends(s: StreamSettings)
    ensures SetTrojanHead(s) == TrojanHeadPairs(s)
  {
    var sec, t, sni := StringOr(s.security, "tls"), StringOr(s.network, "tcp"), TlsServerName(s);
    AppendFresh([], [], "security", sec);
    var p1 := [("security", sec)];
    assert SetParam([], "security", sec) == p1;
    AppendFresh(p1, ["security"], "type", t);
    var p2 := p1 + [("type", t)];
    assert SetParam(p1, "type", t) == p2;
    AppendFresh(p2, ["security", "type"], "sni", sni);
    assert SetParam(p2, "sni", sni) == TrojanHeadPairs(s);
  }

  lemma TrojanParamsAreQuery(ss: Option<StreamSettings>)
    ensures TrojanParams(ss) == TrojanQuery(ss)
  {
    if ss.Some? {
      var s := ss.value;
      TrojanHeadAppends(s);
      TransportAppends(TrojanHeadPairs(s), ["security", "type", "sni"], s);
    }
  }

  // ---------------------------------------------------------------- properties of the link

  function LinkQuery(ib: Inbound): Params {
    if ib.protocol == "vless" then VlessQuery(ib.streamSettings, LinkFlow(ib))
    else TrojanQuery(ib.streamSettings)
  }

  /** The exact layout of a link, with the declarative query list. */
  lemma ShareLinkLayout(ib: Inbound, serverAddr: string)
    requires ib.protocol == "vless" || ib.protocol == "trojan"
    ensures GenerateShareLink(ib, serverAddr) ==
      LinkText(ib.protocol, LinkCredential(ib), serverAddr, ib.port, LinkQuery(ib), ib.remark)
  {
    if ib.protocol == "vless" {
      VlessParamsAreQuery(ib.streamSettings, LinkFlow(ib));
    } else {
      TrojanParamsAreQuery(ib.streamSettings);
    }
  }

  /** Without stream settings the query is empty, so the link holds "?#". */
  lemma NoStreamSettingsEmptyQuery(ib: Inbound, serverAddr: string)
    requires ib.protocol == "vless" || ib.protocol == "trojan"
    requires ib.streamSettings.None?
    ensures LinkQuery(ib) == []
    ensures Contains(GenerateShareLink(ib, serverAddr), "?#")
  {
    ShareLinkLayout(ib, serverAddr);
    var link := GenerateShareLink(ib, serverAddr);
    var head := ib.protocol + "://" + LinkCredential(ib) + "@" + serverAddr + ":" + IntToDecimal(ib.port);
    var frag := EncodeUriComponent(ib.remark);
    assert SerializeQuery([]) == "";
    assert link == head + "?" + "" + "#" + frag;
    assert link == head + "?#" + frag;
    assert link[|head|..|head| + 2] == "?#";
    assert OccursAt(link, "?#", |head|);
    ContainsIffOccurs(link, "?#");
  }

  /** Trojan's `sni` is the TLS server name even when security is reality. */
  lemma TrojanSniFromTls(ib: Inbound)
    requires ib.protocol == "trojan" && ib.streamSettings.Some?
    ensures Lookup(LinkQuery(ib), "sni") == Some(TlsServerName(ib.streamSettings.value))
  {
    var s := ib.streamSettings.value;
    var q := LinkQuery(ib);
    assert q == TrojanHeadPairs(s) + TransportPairs(s);
    assert q[0].0 == "security" && q[1].0 == "type" && q[2] == ("sni", TlsServerName(s));
    assert q[1..][1..] == q[2..];
    assert Lookup(q[2..], "sni") == Some(TlsServerName(s));
    assert Lookup(q[1..], "sni") == Lookup(q[2..], "sni");
  }

  lemma {:induction false} FormEncodeUnreserved(s: string)
    requires forall i :: 0 <= i < |s| ==> IsFormUnreserved(s[i])
    ensures FormEncode(s) == s
    decreases |s|
  {
    if s != [] {
      FormEncodeUnreserved(s[1..]);
      assert [s[0]] + s[1..] == s;
    }
  }

  lemma EncodeSpaceRemark()
    ensures EncodeUriComponent("A B") == "A%20B"
  {
    assert Utf8EncodeChar(' ') == [0x20];
    assert UriEncodeChar(' ') == "%20";
    assert EncodeUriComponent("B") == "B";
    assert EncodeUriComponent(" B") == "%20B";
  }

  lemma SerializeCons(p: (string, string), rest: Params)
    requires rest != []
    ensures SerializeQuery([p] + rest) == FormEncode(p.0) + "=" + FormEncode(p.1) + "&" + SerializeQuery(rest)
  {
    assert ([p] + rest)[1..] == rest;
  }

  lemma SlashXEncoding()
    ensures FormEncode("/x") == "%2Fx"
  {
    assert Utf8EncodeChar('/') == [0x2F];
    assert FormEncodeChar('/') == "%2F";
    FormEncodeUnreserved("x");
  }

  /** The serialized form of one pair. */
  function PairText(p: (string, string)): string { FormEncode(p.0) + "=" + FormEncode(p.1) }

  lemma SerializeFour(a: (string, string), b: (string, string), c: (string, string), d: (string, string))
    ensures SerializeQuery([a, b, c, d]) == PairText(a) + "&" + (PairText(b) + "&" + (PairText(c) + "&" + PairText(d)))
  {
    assert SerializeQuery([d]) == PairText(d);
    assert [c, d][1..] == [d];
    assert SerializeQuery([c, d]) == PairText(c) + "&" + PairText(d);
    assert [b, c, d][1..] == [c, d];
    assert SerializeQuery([b, c, d]) == PairText(b) + "&" + (PairText(c) + "&" + PairText(d));
    assert [a, b, c, d][1..] == [b, c, d];
  }

  lemma UnreservedPairText(p: (string, string))
    requires forall i :: 0 <= i < |p.0| ==> IsFormUnreserved(p.0[i])
    requires forall i :: 0 <= i < |p.1| ==> IsFormUnreserved(p.1[i])
    ensures PairText(p) == p.0 + "=" + p.1
  {
    FormEncodeUnreserved(p.0);
    FormEncodeUnreserved(p.1);
  }

  lemma WorkedPairType(p: (string, string))
    requires p == ("type", "ws")
    ensures PairText(p) == "type=ws"
  {
    UnreservedPairText(p);
  }

  lemma WorkedPairSecurity(p: (string, string))
    requires p == ("security", "none")
    ensures PairText(p) == "security=none"
  {
    UnreservedPairText(p);
  }

  lemma WorkedPairPath(p: (string, string))
    requires p == ("path", "/x")
    ensures PairText(p) == "path=%2Fx"
  {
    FormEncodeUnreserved(p.0);
    SlashXEncoding();
  }

  lemma WorkedPairHost(p: (string, string))
    requires p == ("host", "ex.com")
    ensures PairText(p) == "host=ex.com"
  {
    UnreservedPairText(p);
  }

  lemma WorkedQuery(pairs: Params)
    requires pairs == [("type", "ws"), ("security", "none"), ("path", "/x"), ("host", "ex.com")]
    ensures SerializeQuery(pairs) == "type=ws" + "&" + ("security=none" + "&" + ("path=%2Fx" + "&" + "host=ex.com"))
  {
    SerializeFour(pairs[0], pairs[1], pairs[2], pairs[3]);
    assert [pairs[0], pairs[1], pairs[2], pairs[3]] == pairs;
    WorkedPairType(pairs[0]);
    WorkedPairSecurity(pairs[1]);
    WorkedPairPath(pairs[2]);
    WorkedPairHost(pairs[3]);
  }

  lemma WorkedParams(s: StreamSettings)
    requires s == StreamSettings(Some("ws"), Some("none"),
      Some(WsSettings(Some("/x"), Some(WsHeaders(Some("ex.com"))))), None, None, None, None, None, None, None)
    ensures VlessParams(Some(s), "") == [("type", "ws"), ("security", "none"), ("path", "/x"), ("host", "ex.com")]
  {
    VlessParamsAreQuery(Some(s), "");
  }

  /** The worked example: a vless ws inbound without security. */
  lemma WorkedExample(ib: Inbound)
    requires ib == Inbound("n1", "A B", true, 443, "vless", None, None,
        Some(Settings(Some([Client(Some("U"), None, None, None, None, None)]), None, None, None, None)),
        Some(StreamSettings(Some("ws"), Some("none"), Some(WsSettings(Some("/x"), Some(WsHeaders(Some("ex.com"))))),
          None, None, None, None, None, None, None)),
        None, None, Num(0), Num(0), None, None)
    ensures GenerateShareLink(ib, "1.2.3.4")
      == "vless" + "://" + "U" + "@" + "1.2.3.4" + ":" + "443" + "?"
        + ("type=ws" + "&" + ("security=none" + "&" + ("path=%2Fx" + "&" + "host=ex.com"))) + "#" + "A%20B"
  {
    WorkedParams(ib.streamSettings.value);
    WorkedQuery(VlessParams(ib.streamSettings, ""));
    EncodeSpaceRemark();
    DecimalOf443();
  }

  lemma DecimalOf443()
    ensures IntToDecimal(443) == "443"
  {
    assert NatToDecimal(4) == "4";
    assert NatToDecimal(44) == NatToDecimal(4) + [DigitChar(4)];
    assert NatToDecimal(443) == NatToDecimal(44) + [DigitChar(3)];
  }

  // ---------------------------------------------------------------- taking a link apart

  datatype LinkParts = LinkParts(
    scheme: string, credential: string, address: string, port: string,
    query: Params, remark: string)

  /** The text before and after the first `c`. */
  function SplitFirst(s: string, c: char): Option<(string, string)> {
    match IndexOf(s, c)
    case None => None
    case Some(i) => Some((s[..i], s[i + 1..]))
  }

  /** The text before and after the last `c`. */
  function SplitLast(s: string, c: char): Option<(string, string)> {
    match LastIndexOf(s, c)
    case None => None
    case Some(i) => Some((s[..i], s[i + 1..]))
  }

  lemma SplitFirstConcat(a: string, c: char, b: string)
    requires c !in a
    ensures SplitFirst(a + [c] + b, c) == Some((a, b))
  {
    IndexOfConcat(a, c, b);
    assert (a + [c] + b)[..|a|] == a;
    assert (a + [c] + b)[|a| + 1..] == b;
  }

  lemma SplitLastConcat(a: string, c: char, b: string)
    requires c !in b
    ensures SplitLast(a + [c] + b, c) == Some((a, b))
  {
    LastIndexOfConcat(a, c, b);
    assert (a + [c] + b)[..|a|] == a;
    assert (a + [c] + b)[|a| + 1..] == b;
  }

  /**
   * The inverse of the encoder: the scheme runs to the first ':' and is followed
   * by "//"; the fragment follows the last '#', the query the last '?' before
   * it; the credential runs to the first '@' and the port follows the last ':'.
   */
  function ParseShareLink(link: string): Option<LinkParts> {
    match SplitFirst(link, ':')
    case None => None
    case Some((scheme, rest)) =>
      if StartsWith(rest, "//") then
        match ParseHierPart(rest[2..])
        case None => None
        case Some(parts) => Some(parts.(scheme := scheme))
      else None
  }

  /** Everything after "scheme://": authority, query and fragment (the scheme is left empty). */
  function ParseHierPart(rest: string): Option<LinkParts> {
    match SplitLast(rest, '#')
    case None => None
    case Some((before, fragment)) =>
      match SplitLast(before, '?')
      case None => None
      case Some((authority, query)) =>
        match (ParseAuthority(authority), ParseQuery(query), DecodeUriComponent(fragment))
        case (Some(a), Some(pairs), Some(remark)) => Some(LinkParts("", a.0, a.1, a.2, pairs, remark))
        case _ => None
  }

  /** "credential@address:port", split at the first '@' and the last ':'. */
  function ParseAuthority(authority: string): Option<(string, string, string)> {
    match SplitFirst(authority, '@')
    case None => None
    case Some((cred, hostPort)) =>
      match SplitLast(hostPort, ':')
      case None => None
      case Some((host, port)) => Some((cred, host, port))
  }

  lemma DecimalHasNoColon(i: int)
    ensures ':' !in IntToDecimal(i)
  {
    var s := IntToDecimal(i);
    var d := NatToDecimal(if i < 0 then -i else i);
    forall k | 0 <= k < |s| ensures s[k] != ':' {
      if i < 0 {
        assert s == "-" + d;
        if k > 0 { assert s[k] == d[k - 1]; }
      }
    }
  }

  lemma EncodedRemarkHasNoHash(remark: string)
    ensures '#' !in EncodeUriComponent(remark)
  {
    EncodeUriComponentAlphabet(remark);
  }

  lemma QueryHasNoHashOrMark(pairs: Params)
    ensures '#' !in SerializeQuery(pairs) && '?' !in SerializeQuery(pairs)
  {
    SerializeQueryAlphabet(pairs);
  }

  lemma AuthorityRoundTrip(cred: string, serverAddr: string, portText: string)
    requires '@' !in cred && ':' !in portText
    ensures ParseAuthority(cred + "@" + (serverAddr + ":" + portText)) == Some((cred, serverAddr, portText))
  {
    SplitFirstConcat(cred, '@', serverAddr + ":" + portText);
    SplitLastConcat(serverAddr, ':', portText);
  }

  lemma HierPartRoundTrip(authority: string, query: Params, remark: string)
    requires ParseAuthority(authority).Some?
    ensures ParseHierPart((authority + "?" + SerializeQuery(query)) + "#" + EncodeUriComponent(remark))
      == Some(LinkParts("", ParseAuthority(authority).value.0, ParseAuthority(authority).value.1,
                        ParseAuthority(authority).value.2, query, remark))
  {
    var qs, frag := SerializeQuery(query), EncodeUriComponent(remark);
    EncodedRemarkHasNoHash(remark);
    SplitLastConcat(authority + "?" + qs, '#', frag);
    QueryHasNoHashOrMark(query);
    SplitLastConcat(authority, '?', qs);
    QueryRoundTrip(query);
    DecodeEncodeUriComponent(remark);
  }

  /** The link regrouped the way the parser takes it apart. */
  lemma LinkTextShape(scheme: string, cred: string, addr: string, port: string, qs: string, frag: string)
    ensures scheme + "://" + cred + "@" + addr + ":" + port + "?" + qs + "#" + frag
      == scheme + ":" + ("//" + (((cred + "@" + (addr + ":" + port)) + "?" + qs) + "#" + frag))
  {
    var authority := cred + "@" + (addr + ":" + port);
    assert cred + "@" + addr + ":" + port == authority;
    assert scheme + "://" + cred + "@" + addr + ":" + port == scheme + ":" + ("//" + authority);
    var rest := (authority + "?" + qs) + "#" + frag;
    assert scheme + ":" + ("//" + authority) + "?" + qs + "#" + frag == scheme + ":" + ("//" + rest);
  }

  /** Any link in the fixed layout parses back into its parts, provided the credential has no '@'. */
  lemma LinkTextRoundTrip(scheme: string, cred: string, serverAddr: string, port: int, query: Params, remark: string)
    requires ':' !in scheme && '@' !in cred
    ensures ParseShareLink(LinkText(scheme, cred, serverAddr, port, query, remark)) ==
      Some(LinkParts(scheme, cred, serverAddr, IntToDecimal(port), query, remark))
  {
    var authority := cred + "@" + (serverAddr + ":" + IntToDecimal(port));
    var rest := (authority + "?" + SerializeQuery(query)) + "#" + EncodeUriComponent(remark);
    LinkTextShape(scheme, cred, serverAddr, IntToDecimal(port), SerializeQuery(query), EncodeUriComponent(remark));
    SplitFirstConcat(scheme, ':', "//" + rest);
    assert ("//" + rest)[2..] == rest;
    DecimalHasNoColon(port);
    AuthorityRoundTrip(cred, serverAddr, IntToDecimal(port));
    HierPartRoundTrip(authority, query, remark);
  }

  /**
   * Every link the encoder produces parses back into its scheme, credential,
   * address, port, query list and remark, provided the credential has no '@'.
   */
  lemma ShareLinkRoundTrip(ib: Inbound, serverAddr: string)
    requires ib.protocol == "vless" || ib.protocol == "trojan"
    requires '@' !in LinkCredential(ib)
    ensures ParseShareLink(GenerateShareLink(ib, serverAddr)) ==
      Some(LinkParts(ib.protocol, LinkCredential(ib), serverAddr, IntToDecimal(ib.port), LinkQuery(ib), ib.remark))
  {
    ShareLinkLayout(ib, serverAddr);
    LinkTextRoundTrip(ib.protocol, LinkCredential(ib), serverAddr, ib.port, LinkQuery(ib), ib.remark);
  }
}
