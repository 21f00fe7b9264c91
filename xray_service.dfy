/**
 * How the backend assembles xray's configuration from the enabled inbounds
 * (`apply_config`). Serialising and writing the file and restarting xray are
 * outside the model; JSON parsing of the stored columns is a parameter.
 */
module XrayService {
  import opened Wrappers
  import opened StoredInbound
  import J = Inbound

  datatype LogConfig = LogConfig(loglevel: string, access: Option<string>, error: Option<string>)

  datatype ApiConfig = ApiConfig(tag: string, services: seq<string>)

  datatype InboundConfig = InboundConfig(
    tag: string,
    port: int,
    protocol: string,
    listen: Option<string>,
    settings: Option<J.Json>,
    streamSettings: Option<J.Json>,
    sniffing: Option<J.Json>,
    allocate: Option<J.Json>)

  datatype OutboundConfig = OutboundConfig(
    tag: string,
    protocol: string,
    settings: Option<J.Json>,
    streamSettings: Option<J.Json>)

  datatype RoutingRule = RoutingRule(
    ruleType: string,
    port: Option<string>,
    inboundTag: Option<seq<string>>,
    outboundTag: Option<string>,
    ip: Option<seq<string>>,
    domain: Option<seq<string>>,
    protocol: Option<seq<string>>)

  datatype RoutingConfig = RoutingConfig(domainStrategy: string, rules: seq<RoutingRule>)

  datatype LevelPolicy = LevelPolicy(
    statsUserUplink: bool,
    statsUserDownlink: bool,
    handshake: int,
    connIdle: int,
    uplinkOnly: int,
    downlinkOnly: int,
    bufferSize: int)

  datatype SystemPolicy = SystemPolicy(
    statsInboundUplink: bool,
    statsInboundDownlink: bool,
    statsOutboundUplink: bool,
    statsOutboundDownlink: bool)

  datatype PolicyConfig = PolicyConfig(levels: map<string, LevelPolicy>, system: Option<SystemPolicy>)

  /** The configuration; `stats` stands for the presence of the empty `stats` object. */
  datatype XrayConfig = XrayConfig(
    log: LogConfig,
    api: ApiConfig,
    inbounds: seq<InboundConfig>,
    outbounds: seq<OutboundConfig>,
    routing: Option<RoutingConfig>,
    stats: bool,
    policy: Option<PolicyConfig>)

  /** The starting configuration: empty lists and nothing optional set. */
  const EmptyConfig: XrayConfig :=
    XrayConfig(LogConfig("", None, None), ApiConfig("", []), [], [], None, false, None)

  const ApiTag: string := "api"
  const ApiPort: int := 10085
  const Loopback: string := "127.0.0.1"

  /** `RoutingRule::default`: a "field" rule that matches on nothing yet. */
  function DefaultRule(): (r: RoutingRule)
    ensures r.ruleType == "field"
    ensures r.port.None? && r.inboundTag.None? && r.outboundTag.None?
    ensures r.ip.None? && r.domain.None? && r.protocol.None?
  {
    RoutingRule("field", None, None, None, None, None, None)
  }

  /** The dokodemo-door inbound the stats queries reach xray through. */
  function ApiInbound(): InboundConfig {
    InboundConfig(ApiTag, ApiPort, "dokodemo-door", Some(Loopback),
      Some(J.JObject([("address", J.JString(Loopback))])), None, None, None)
  }

  /** A stored JSON column: absent when missing or when it does not parse. */
  function ParsedColumn(column: Option<string>, parse: string -> Option<J.Json>): (r: Option<J.Json>)
    ensures column.None? ==> r.None?
    ensures column.Some? && parse(column.value).None? ==> r.None?
  {
    match column
    case Some(s) => parse(s)
    case None => None
  }

  /** The entry one stored inbound contributes. */
  function InboundOf(row: Row, parse: string -> Option<J.Json>): (c: InboundConfig)
    ensures c.tag == TagOf(row) && c.port == row.port && c.protocol == row.protocol && c.listen == row.listen
  {
    InboundConfig(TagOf(row), row.port, row.protocol, row.listen,
      ParsedColumn(row.settings, parse), ParsedColumn(row.streamSettings, parse),
      ParsedColumn(row.sniffing, parse), ParsedColumn(row.allocate, parse))
  }

  /** The rows `SELECT * FROM inbounds WHERE enable = 1` returns, in table order. */
  function EnabledRows(table: seq<Row>): (rs: seq<Row>)
    ensures |rs| <= |table|
    ensures forall i :: 0 <= i < |rs| ==> rs[i].enable
    decreases |table|
  {
    if table == [] then []
    else (if table[0].enable then [table[0]] else []) + EnabledRows(table[1..])
  }

  lemma {:induction false} EnabledRowsComplete(table: seq<Row>, i: nat)
    requires i < |table| && table[i].enable
    ensures table[i] in EnabledRows(table)
    decreases |table|
  {
    if i > 0 {
      EnabledRowsComplete(table[1..], i - 1);
    }
  }

  lemma {:induction false} EnabledRowsFromTable(table: seq<Row>)
    ensures forall r :: r in EnabledRows(table) ==> r in table
    decreases |table|
  {
    if table != [] {
      EnabledRowsFromTable(table[1..]);
    }
  }

  const LevelZero: LevelPolicy := LevelPolicy(true, true, 4, 300, 2, 5, 512)
  const AllSystemStats: SystemPolicy := SystemPolicy(true, true, true, true)

  /** The one routing rule: traffic of the api inbound goes to the api handler. */
  function ApiRule(): (r: RoutingRule)
    ensures r == DefaultRule().(inboundTag := Some([ApiTag]), outboundTag := Some(ApiTag))
  {
    RoutingRule("field", None, Some([ApiTag]), Some(ApiTag), None, None, None)
  }

  /**
   * `apply_config` up to serialisation: log level, api services, the api
   * inbound followed by one entry per enabled inbound, stats, policy, the
   * two outbounds and the routing.
   */
  method ApplyConfig(table: seq<Row>, parse: string -> Option<J.Json>, accessLog: string, errorLog: string)
    returns (config: XrayConfig)
    ensures config.log == LogConfig("error", Some(accessLog), Some(errorLog))
    ensures config.api == ApiConfig(ApiTag, ["HandlerService", "LoggerService", "StatsService"])
    ensures |config.inbounds| == |EnabledRows(table)| + 1
    ensures config.inbounds[0] == ApiInbound()
    ensures forall i :: 0 <= i < |EnabledRows(table)| ==> config.inbounds[i + 1] == InboundOf(EnabledRows(table)[i], parse)
    ensures config.stats
    ensures config.policy == Some(PolicyConfig(map["0" := LevelZero], Some(AllSystemStats)))
    ensures config.outbounds == [OutboundConfig("direct", "freedom", None, None), OutboundConfig("blocked", "blackhole", None, None)]
    ensures config.routing == Some(RoutingConfig("IPIfNonMatch", [ApiRule()]))
  {
    var inbounds := EnabledRows(table);
    config := EmptyConfig;
    config := config.(log := config.log.(loglevel := "error"));
    config := config.(log := config.log.(access := Some(accessLog), error := Some(errorLog)));
    config := config.(api := ApiConfig(ApiTag, ["HandlerService", "LoggerService", "StatsService"]));
    config := config.(inbounds := config.inbounds + [ApiInbound()]);
    var i := 0;
    while i < |inbounds|
      invariant 0 <= i <= |inbounds|
      invariant |config.inbounds| == i + 1 && config.inbounds[0] == ApiInbound()
      invariant forall j :: 0 <= j < i ==> config.inbounds[j + 1] == InboundOf(inbounds[j], parse)
      invariant config.log == LogConfig("error", Some(accessLog), Some(errorLog))
      invariant config.api == ApiConfig(ApiTag, ["HandlerService", "LoggerService", "StatsService"])
      invariant config.outbounds == [] && config.routing.None? && config.policy.None? && !config.stats
    {
      var row := inbounds[i];
      var inboundConfig := InboundConfig(
        TagOf(row), row.port, row.protocol, row.listen,
        ParsedColumn(row.settings, parse), ParsedColumn(row.streamSettings, parse),
        ParsedColumn(row.sniffing, parse), ParsedColumn(row.allocate, parse));
      config := config.(inbounds := config.inbounds + [inboundConfig]);
      i := i + 1;
    }
    config := config.(stats := true);
    var levels := map["0" := LevelZero];
    config := config.(policy := Some(PolicyConfig(levels, Some(AllSystemStats))));
    config := config.(outbounds := config.outbounds + [OutboundConfig("direct", "freedom", None, None)]);
    config := config.(outbounds := config.outbounds + [OutboundConfig("blocked", "blackhole", None, None)]);
    var rules: seq<RoutingRule> := [];
    rules := rules + [DefaultRule().(inboundTag := Some([ApiTag]), outboundTag := Some(ApiTag))];
    assert rules == [ApiRule()];
    config := config.(routing := Some(RoutingConfig("IPIfNonMatch", rules)));
  }

  /** Tags of the enabled inbounds, as the configuration lists them after the api entry. */
  predicate DistinctTags(rows: seq<Row>) {
    forall i, j :: 0 <= i < j < |rows| ==> TagOf(rows[i]) != TagOf(rows[j])
  }

  /**
   * When the enabled inbounds have distinct tags, none of them "api", every
   * inbound of the configuration has its own tag, as xray demands.
   */
  lemma ConfigTagsDistinct(config: XrayConfig, rows: seq<Row>, parse: string -> Option<J.Json>)
    requires |config.inbounds| == |rows| + 1 && config.inbounds[0] == ApiInbound()
    requires forall i :: 0 <= i < |rows| ==> config.inbounds[i + 1] == InboundOf(rows[i], parse)
    requires DistinctTags(rows) && forall i :: 0 <= i < |rows| ==> TagOf(rows[i]) != ApiTag
    ensures forall i, j :: 0 <= i < j < |config.inbounds| ==> config.inbounds[i].tag != config.inbounds[j].tag
  {
    forall i, j | 0 <= i < j < |config.inbounds|
      ensures config.inbounds[i].tag != config.inbounds[j].tag
    {
      assert config.inbounds[j].tag == TagOf(rows[j - 1]);
      if i > 0 {
        assert config.inbounds[i].tag == TagOf(rows[i - 1]);
      }
    }
  }

  /** Each enabled inbound is configured under the tag its traffic is counted by. */
  lemma ConfigTagIsCountingTag(config: XrayConfig, rows: seq<Row>, parse: string -> Option<J.Json>, i: nat)
    requires |config.inbounds| == |rows| + 1
    requires forall k :: 0 <= k < |rows| ==> config.inbounds[k + 1] == InboundOf(rows[k], parse)
    requires i < |rows|
    ensures config.inbounds[i + 1].tag == TagOf(rows[i])
    ensures rows[i].tag.None? ==> config.inbounds[i + 1].tag == DefaultTagPrefix + rows[i].id
  {
    assert config.inbounds[i + 1] == InboundOf(rows[i], parse);
  }
}
