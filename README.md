# x-ui-rs core, modelled in Dafny

This project models the logic core of x-ui-rs, a web panel for the xray proxy. The panel has two halves:
- a Rust backend that keeps inbounds (listening proxy entries) in SQLite and writes the xray configuration;
- a React client that edits inbounds, shares them as links and manages the panel's settings.

The model covers the parts of both halves that compute something. Process, file, database and network I/O become parameters or are left out.

Front end (TypeScript):
- `LinkUtils`: the `vless://` and `trojan://` share links. They are built on `Encoding`, which holds `encodeURIComponent`, the application/x-www-form-urlencoded serializer of the WHATWG URL Standard (section 5.2), UTF-8, lower-case hex and base64 (RFC 4648 section 4). A parser proves that every link whose credential holds no '@' reads back.
- `InboundForm`: the add/edit dialog's form state (class `Form`), its reset defaults and its rehydration from a stored inbound. It also holds the fail-fast checks and the record builder of `handleConfirm`, written both as functions and as the imperative builder methods.
- `AddInboundModal`: the dialog around the form.
- `LegacyModal`: the older single-file dialog.
- `Uuid`: the UUID v4 fallback of RFC 4122 section 4.4.
- `InboundStore`: the inbound list store (class `InboundStore`).
- `InboundPage`: traffic totals, the reset baseline and the search filter.
- `ApiClient`: base URL, bearer header and logout on 401.
- `SettingStore` and `SettingsPage`: panel and credential settings, with web-root normalisation.

Back end (Rust):
- `Validation`: username and password rules.
- `ApiErrors`: error to HTTP response.
- `TrafficService`: the xray stats text parser and quota accounting.
- `XrayService`: xray configuration assembly.
- `StoredInbound`: a database row and its counting tag.
- `RealityKeys`: the `xray x25519` output reader.
- `SystemService`: version, architecture, log tail, connection counts, the running flag, disk and network sums.
- `Startup`: CLI flags, web root, mount path, index page and dist directory.
- `TestParser`: the stand-alone stats-parser experiment `test_parser.rs`.

Shared modules:
- `Wrappers`: Option and Result.
- `Text`: JavaScript and Rust string primitives, such as trim, split, `lines` and integer parsing.
- `Inbound`: the client's inbound record, plus `Number()` and `String()` on integers.

## Model

| member | source | states |
|---|---|---|
| Text.ToLower | web/src/views/InboundPage.tsx:74-78 | lower-casing keeps the length and maps each character on its own |
| Text.Trim | backend/src/services/traffic_service.rs:143 | a trimmed text neither starts nor ends with a dropped character |
| Text.Lines | backend/src/services/system_service.rs:575 | only the empty text has no lines |
| Text.LinesOfJoin | backend/src/services/traffic_service.rs:142 | lines joined with newlines split back into the same lines |
| Text.Split | backend/src/services/traffic_service.rs:145-149 | splitting always gives at least one piece |
| Text.SplitNth | backend/src/services/traffic_service.rs:145-149 | the n-th piece exists exactly when the split has more than n pieces |
| Text.SplitWhitespace | backend/src/services/system_service.rs:576 | no word is empty |
| Text.SplitWhitespaceOfWords | backend/src/services/system_service.rs:576 | words joined by spaces split back into the same words |
| Text.ReplaceAll | backend/src/main.rs:242 | text without the placeholder is unchanged |
| Text.ParseI64 | backend/src/services/traffic_service.rs:153 | a parsed value lies within the i64 range |
| Text.ParseU64 | backend/src/services/system_service.rs:553-554 | a parsed count lies within the u64 range |
| Text.ParseI64OfDecimal | backend/src/services/traffic_service.rs:153 | the decimal text of a number within the i64 range parses back to it |
| Encoding.ByteToLowerHex | web/src/components/AddInboundModal/index.tsx:38 | `b.toString(16).padStart(2, '0')` is two lower-case hex digits whose values are the byte's high and low nibble |
| Encoding.BytesToLowerHex | web/src/components/AddInboundModal/index.tsx:37-39 | two lower-case hex digits per byte |
| Encoding.LowerHexRoundTrip | web/src/components/AddInboundModal/index.tsx:37-39 | the hex text reads back as the same bytes |
| Encoding.Utf8EncodeChar | backend/src/utils/validation.rs:11 | a character is 1 to 4 UTF-8 bytes, all but the first continuation bytes |
| Encoding.Utf8CharRoundTrip | backend/src/utils/validation.rs:11 | the leading byte announces the sequence's length and the sequence decodes back to the character |
| Encoding.Utf8LengthAscii | backend/src/utils/validation.rs:11-30 | an ASCII string's byte length is its character count |
| Encoding.Utf8LengthAtLeastChars | backend/src/utils/validation.rs:11-30 | the byte length is never below the character count |
| Encoding.PercentEncodeBytes | web/src/utils/linkUtils.ts:8 | three characters "%XY" per byte |
| Encoding.UriEncodeChar | web/src/utils/linkUtils.ts:8 | `encodeURIComponent` escapes a character iff it is not unreserved |
| Encoding.FormEncodeChar | web/src/utils/linkUtils.ts:42 | the URLSearchParams serializer escapes a character iff it is neither unreserved nor a space (a space becomes '+') |
| Encoding.EncodedLengths | web/src/utils/linkUtils.ts:8-42 | `encodeURIComponent` and the form encoder never give a text shorter than their input |
| Encoding.EncodeUriComponentAlphabet | web/src/utils/linkUtils.ts:8 | the encoded remark holds only unreserved characters and "%XY" escapes |
| Encoding.FormEncodeAlphabet | web/src/utils/linkUtils.ts:42 | a serialized name or value holds only unreserved characters, '%' and '+' |
| Encoding.DecodeEncodeUriComponent | web/src/utils/linkUtils.ts:8 | `decodeURIComponent` inverts `encodeURIComponent` on every string |
| Encoding.FormDecodeEncode | web/src/utils/linkUtils.ts:42 | form decoding inverts the serializer's encoding of a name or value |
| Encoding.SerializeQueryShape | web/src/utils/linkUtils.ts:42 | the serialized query is empty iff there are no pairs, and is at least one character (the '=') per pair plus one '&' between neighbours long |
| Encoding.SerializeIsJoin | web/src/utils/linkUtils.ts:42 | `params.toString()` is the `name=value` pieces joined by '&' in insertion order |
| Encoding.PairRoundTrip | web/src/utils/linkUtils.ts:42 | one serialized pair parses back to itself |
| Encoding.QueryRoundTrip | web/src/utils/linkUtils.ts:42 | a serialized parameter list parses back to the same pairs in the same order |
| Encoding.SerializeQueryAlphabet | web/src/utils/linkUtils.ts:42 | the serialized query holds no '#' or '?', so it cannot run into the fragment |
| Encoding.Base64Encode | web/src/components/AddInboundModal.tsx:241-242 | `btoa` gives 4 characters per started group of 3 bytes |
| Encoding.Base64GroupRoundTrip | web/src/components/AddInboundModal.tsx:241-242 | a full group of three bytes decodes back |
| Encoding.Base64RoundTrip | web/src/components/AddInboundModal.tsx:241-242 | base64 decoding inverts `btoa` on every byte sequence |
| LinkUtils.Lookup | web/src/utils/linkUtils.ts:14 | `params.get(k)` finds a value iff some pair has that name |
| LinkUtils.RemoveKey | web/src/utils/linkUtils.ts:14 | removing a name leaves no pair with it |
| LinkUtils.SetParam | web/src/utils/linkUtils.ts:17 | `params.set(k, v)` makes `get(k)` return v, and appends when the name was absent |
| LinkUtils.LookupAppended | web/src/utils/linkUtils.ts:17 | a pair appended under a fresh name is found |
| LinkUtils.SetParamOtherKeys | web/src/utils/linkUtils.ts:17-39 | `set` leaves every other name's value unchanged |
| LinkUtils.LookupSkipsAppended | web/src/utils/linkUtils.ts:17-39 | appending under one name does not change the lookup of another |
| LinkUtils.LookupRemoved | web/src/utils/linkUtils.ts:17-39 | removing one name does not change the lookup of another |
| LinkUtils.FreshKey | web/src/utils/linkUtils.ts:17-39 | a name outside the ones already set is absent |
| LinkUtils.AppendFresh | web/src/utils/linkUtils.ts:17-39 | setting a fresh name appends exactly one pair |
| LinkUtils.HeadAppends | web/src/utils/linkUtils.ts:17-20 | the vless query starts with `type` (default "tcp") and `security` (default "none"), then `flow` only when the first client has one |
| LinkUtils.RealityAppends | web/src/utils/linkUtils.ts:22-29 | reality settings append `sni` (first server name or ""), `fp` (default "chrome"), `pbk`, `sid` (first short id or ""), in that order |
| LinkUtils.SecurityAppends | web/src/utils/linkUtils.ts:22-32 | reality appends its four pairs only when its settings exist, tls appends only `sni`, any other security nothing |
| LinkUtils.TransportAppends | web/src/utils/linkUtils.ts:34-60 | ws appends `path` (default "/") and `host` (default ""), grpc appends `serviceName`, other networks nothing |
| LinkUtils.VlessParamsAreQuery | web/src/utils/linkUtils.ts:14-40 | the `set` calls of a vless link produce exactly the declarative list of pairs, in order |
| LinkUtils.TrojanHeadAppends | web/src/utils/linkUtils.ts:51-53 | the trojan query starts with `security` (default "tls"), `type`, `sni` |
| LinkUtils.TrojanParamsAreQuery | web/src/utils/linkUtils.ts:48-61 | the `set` calls of a trojan link produce exactly the declarative list of pairs, in order |
| LinkUtils.LinkTextScheme | web/src/utils/linkUtils.ts:42-63 | a link starts with its scheme followed by "://" |
| LinkUtils.GenerateShareLink | web/src/utils/linkUtils.ts:6-67 | the link is empty iff the protocol is neither vless nor trojan; a non-empty link starts with the protocol and "://" |
| LinkUtils.ShareLinkLayout | web/src/utils/linkUtils.ts:42-63 | a link is `scheme://credential@address:port?query#encodeURIComponent(remark)`, the credential being the first client's id (vless) or password (trojan) |
| LinkUtils.NoStreamSettingsEmptyQuery | web/src/utils/linkUtils.ts:16-63 | without stream settings the query is empty and the link contains "?#" |
| LinkUtils.TrojanSniFromTls | web/src/utils/linkUtils.ts:53 | a trojan link's `sni` is the TLS server name whatever the security |
| LinkUtils.FormEncodeUnreserved | web/src/utils/linkUtils.ts:42 | unreserved text is serialized unchanged |
| LinkUtils.EncodeSpaceRemark | web/src/utils/linkUtils.ts:8 | the remark "A B" is encoded as "A%20B" |
| LinkUtils.SlashXEncoding | web/src/utils/linkUtils.ts:35-42 | the path "/x" is serialized as "%2Fx" |
| LinkUtils.WorkedQuery | web/src/utils/linkUtils.ts:17-36 | the worked example's pairs serialize as `type=ws&security=none&path=%2Fx&host=ex.com` |
| LinkUtils.WorkedParams | web/src/utils/linkUtils.ts:17-36 | a ws inbound without security and flow gets the pairs type, security, path, host |
| LinkUtils.WorkedExample | web/src/utils/linkUtils.ts:8-42 | vless id U on port 443 over ws with path "/x", host "ex.com" and remark "A B" at 1.2.3.4 gives `vless://U@1.2.3.4:443?type=ws&security=none&path=%2Fx&host=ex.com#A%20B` |
| LinkUtils.SplitFirstConcat | web/src/utils/linkUtils.ts:42 | splitting at the first separator recovers the two parts when the first has none |
| LinkUtils.SplitLastConcat | web/src/utils/linkUtils.ts:42 | splitting at the last separator recovers the two parts when the second has none |
| LinkUtils.DecimalHasNoColon | web/src/utils/linkUtils.ts:42 | the port's decimal text has no ':' |
| LinkUtils.EncodedRemarkHasNoHash | web/src/utils/linkUtils.ts:8-42 | the encoded remark has no '#' |
| LinkUtils.QueryHasNoHashOrMark | web/src/utils/linkUtils.ts:42 | the serialized query has no '#' or '?' |
| LinkUtils.AuthorityRoundTrip | web/src/utils/linkUtils.ts:42 | `credential@address:port` splits back into its parts when the credential has no '@' |
| LinkUtils.HierPartRoundTrip | web/src/utils/linkUtils.ts:42 | the text after "//" splits back into authority, query pairs and remark |
| LinkUtils.LinkTextRoundTrip | web/src/utils/linkUtils.ts:42-63 | any text in the link layout parses back into scheme, credential, address, port text, query pairs and remark |
| LinkUtils.ShareLinkRoundTrip | web/src/utils/linkUtils.ts:6-64 | every vless or trojan link whose credential has no '@' parses back into the inbound's protocol, credential, address, port, query pairs and remark |
| Inbound.NumberToString | web/src/components/AddInboundModal/useInboundForm.ts:112-125 | the text of a number is never empty |
| Inbound.IntegralLiteral | web/src/components/AddInboundModal/index.tsx:154 | an integral literal is never empty text |
| Inbound.ToNumber | web/src/components/AddInboundModal/index.tsx:154-160 | blank text reads as 0 |
| Inbound.IntegralLiteralOfDecimal | web/src/components/AddInboundModal/index.tsx:154 | the decimal text of a natural number reads back as that number |
| Inbound.ToNumberOfDecimal | web/src/components/AddInboundModal/index.tsx:154 | the decimal text of any integer reads back as that integer |
| Inbound.ToNumberOfDigits | web/src/components/AddInboundModal/index.tsx:154 | a string of digits reads as its decimal value |
| Inbound.NumberTextRoundTrip | web/src/components/AddInboundModal/useInboundForm.ts:112-122 | a number written into the form and read back on submit is the same number |
| Inbound.StringOr | web/src/utils/linkUtils.ts:11-18 | a text default: the value when present and non-empty, else the default |
| Inbound.FirstOf | web/src/utils/linkUtils.ts:11-28 | `xs?.[0]`: the first element when the list is present and non-empty, else nothing |
| InboundForm.InitialValues | web/src/components/AddInboundModal/useInboundForm.ts:7-57 | a freshly mounted form has port "40754", the given UUID, security "none" and the socket switches PROXY off, Fast Open on, No Delay on |
| InboundForm.RandomPort | web/src/components/AddInboundModal/useInboundForm.ts:65 | `floor(r*50000)+10000` for r in [0,1) is a port in [10000, 60000) |
| InboundForm.ResetValues | web/src/components/AddInboundModal/useInboundForm.ts:59-102 | `resetForm` yields the initial values with the new port and UUID, every socket switch at its default except TCP Fast Open, which keeps its previous value |
| InboundForm.ErrorKey | web/src/components/AddInboundModal/index.tsx:43-50 | each failed check alerts with its own non-empty translation key |
| InboundForm.ErrorKeysDistinct | web/src/components/AddInboundModal/index.tsx:43-50 | different failed checks give different alerts |
| InboundForm.FirstError | web/src/components/AddInboundModal/index.tsx:43-58 | the checks run fail-fast in the order remark, port, credential, reality key; no error iff every check passes; each of the remark, port, uuid, password and reality-key errors holds iff the earlier checks passed and its own failed |
| InboundForm.NonEmpty | web/src/components/AddInboundModal/index.tsx:63 | `s && { key: s }`: the key is present iff the text is non-empty, and then carries the text |
| InboundForm.NumberIfSet | web/src/components/AddInboundModal/index.tsx:62 | `s && { key: Number(s) }`: present iff the text is non-empty, carrying `Number(s)` |
| InboundForm.ClientOf | web/src/components/AddInboundModal/index.tsx:59-78 | vless/vmess clients carry the id and no password, other clients the password; `flow` only for vless with a flow; `level` whenever the level text is non-empty; `email` when set; `alterId` only for vmess |
| InboundForm.SettingsOf | web/src/components/AddInboundModal/index.tsx:52-89 | exactly one client for vless, vmess and trojan; `decryption` only for vless; shadowsocks gives method, password and network; any other protocol gives `{}` |
| InboundForm.TrimEach | web/src/components/AddInboundModal/index.tsx:108 | `.map(h => h.trim())` keeps the length and trims each entry |
| InboundForm.NonBlank | web/src/components/AddInboundModal/index.tsx:128-131 | `.filter(s => s.trim())` keeps only entries with a non-whitespace character, untrimmed, and keeps a list with no blank entry unchanged |
| InboundForm.TransportOf | web/src/components/AddInboundModal/index.tsx:91-117 | `network` and `security` always present; the ws, grpc, h2 and xhttp blocks each present iff the network names it; the ws block carries the form's path and its Host header only when filled in; the grpc block the service name and multi-mode flag; the h2 block the path and, when filled in, the comma-separated hosts each trimmed in order; the xhttp block the mode, the path and the host only when filled in |
| InboundForm.RealityOf | web/src/components/AddInboundModal/index.tsx:124-136 | server names and short ids are the non-blank lines; both keys copied; the client versions and time difference only when filled in |
| InboundForm.SockoptOf | web/src/components/AddInboundModal/index.tsx:139-144 | `sockopt` present iff any socket switch is on, holding exactly the TCP flags that are on, never a false flag |
| InboundForm.StreamOf | web/src/components/AddInboundModal/index.tsx:91-149 | `realitySettings` present iff security is reality; `sockopt` as above; `acceptProxyProtocol: true` only when that switch is on |
| InboundForm.TimesGiB | web/src/components/AddInboundModal/index.tsx:160 | `Number(x) * 1024³` is NaN iff `Number(x)` is, else the product |
| InboundForm.RecordOf | web/src/components/AddInboundModal/index.tsx:150-164 | the edited inbound's id when it has one, else the fresh one; port `Number(port)`; tag and listen only when set; total in bytes; expiry 0 when blank; up and down copied from the edited inbound, else 0 |
| InboundForm.BuildInbound | web/src/components/AddInboundModal/index.tsx:42-164 | `handleConfirm`'s result is an error iff a check fails, and then the first failing one; otherwise a record whose remark is not blank and whose port is `Number(port)` |
| InboundForm.BuildClient | web/src/components/AddInboundModal/index.tsx:59-78 | the client built key by key equals `ClientOf` |
| InboundForm.BuildTransport | web/src/components/AddInboundModal/index.tsx:91-117 | the transport built key by key equals `TransportOf` |
| InboundForm.BuildReality | web/src/components/AddInboundModal/index.tsx:124-136 | the reality block built key by key equals `RealityOf` |
| InboundForm.BuildSettings | web/src/components/AddInboundModal/index.tsx:52-89 | fails iff the protocol's credential is empty, with the uuid alert for vless/vmess and the password alert otherwise; else equals `SettingsOf` |
| InboundForm.BuildStream | web/src/components/AddInboundModal/index.tsx:91-149 | fails iff reality is chosen with an empty private key; else equals `StreamOf` |
| InboundForm.BuildPayload | web/src/components/AddInboundModal/index.tsx:42-164 | the imperative confirm path (early returns included) returns exactly `BuildInbound` |
| InboundForm.ResetFormNeedsRemark | web/src/components/AddInboundModal/useInboundForm.ts:59-60 | a freshly reset form is refused with the remark alert |
| InboundForm.LevelZeroSent | web/src/components/AddInboundModal/index.tsx:62 | level "0" is still sent, as `level: 0` |
| InboundForm.ProxyProtocolOnlySockopt | web/src/components/AddInboundModal/index.tsx:139-148 | with only the PROXY switch on, `sockopt` is `{}` and `acceptProxyProtocol` is true |
| InboundForm.TotalOfDigits | web/src/components/AddInboundModal/index.tsx:160 | a digits-only traffic text gives its value times 1024³ bytes |
| InboundForm.FiveGiB | web/src/components/AddInboundModal/index.tsx:160 | "5" gives 5368709120 bytes |
| InboundForm.NonBlankPair | web/src/components/AddInboundModal/index.tsx:128 | a blank entry is dropped, a non-blank one kept |
| InboundForm.EntriesKeepSpaces | web/src/components/AddInboundModal/index.tsx:128-131 | a blank line is dropped and the surrounding spaces of a kept line are not trimmed |
| InboundForm.NumberOrZeroText | web/src/components/AddInboundModal/useInboundForm.ts:123-126 | the text of the number, or "0" for a missing or falsy number |
| InboundForm.TrafficText | web/src/components/AddInboundModal/useInboundForm.ts:113 | a whole number of GiB is shown as that number, a missing or zero total as "0" |
| InboundForm.LoadGeneral | web/src/components/AddInboundModal/useInboundForm.ts:107-114 | remark and enable copied, protocol defaults to "vless", port 0 shown as "", total shown in GiB, no expiry shown as "" |
| InboundForm.LoadClient | web/src/components/AddInboundModal/useInboundForm.ts:118-126 | uuid is the client id or a fresh UUID, password defaults to "", level and alterId as decimal text defaulting to "0" |
| InboundForm.LoadProtocol | web/src/components/AddInboundModal/useInboundForm.ts:127-133 | decryption defaults to "none"; the shadowsocks fields change only for a shadowsocks inbound |
| InboundForm.JoinedOr | web/src/components/AddInboundModal/useInboundForm.ts:152-171 | the default for a missing list, otherwise the joined text, or the default when that is empty |
| InboundForm.LoadTransport | web/src/components/AddInboundModal/useInboundForm.ts:138-160 | network defaults to "tcp"; a block the inbound lacks leaves its fields unchanged; h2 hosts are joined with "," |
| InboundForm.LoadReality | web/src/components/AddInboundModal/useInboundForm.ts:162-175 | server names and short ids joined with newlines (server names default to "www.microsoft.com"), keys default to "" |
| InboundForm.LoadSockets | web/src/components/AddInboundModal/useInboundForm.ts:177-182 | PROXY defaults to off; without `sockopt` the TCP switches keep their values, with it a missing flag reads as on |
| InboundForm.Rehydrated | web/src/components/AddInboundModal/useInboundForm.ts:104-183 | the edited inbound's values section by section; the client fields change only when there is a first client; absent stream or reality blocks keep the previous values |
| InboundForm.PortRoundTrip | web/src/components/AddInboundModal/useInboundForm.ts:112 | a non-zero port reloads as text the checks accept and submits as the same number |
| InboundForm.PortZeroRefused | web/src/components/AddInboundModal/useInboundForm.ts:112 | an inbound with port 0 reloads with an empty port and is then refused with the port alert |
| InboundForm.TotalRoundTrip | web/src/components/AddInboundModal/useInboundForm.ts:113 | a whole number of GiB reloads and resubmits as the same byte count |
| InboundForm.LevelRoundTrip | web/src/components/AddInboundModal/useInboundForm.ts:123 | a loaded level resubmits as the same number, a missing one as 0 |
| InboundForm.JoinNonEmpty | web/src/components/AddInboundModal/useInboundForm.ts:168 | joining a list whose first entry is non-empty never gives "" (so the default is not used) |
| InboundForm.EntriesRoundTrip | web/src/components/AddInboundModal/useInboundForm.ts:168-171 | non-blank server names or short ids reload and resubmit as the same list |
| InboundForm.HostsRoundTrip | web/src/components/AddInboundModal/useInboundForm.ts:152 | trimmed h2 hosts without commas reload and resubmit as the same list |
| InboundForm.ShortId | web/src/components/AddInboundModal/index.tsx:37-39 | 4 bytes become exactly 8 lower-case hex digits that read back as the same bytes |
| InboundForm.FallbackBytes | web/src/components/AddInboundModal/index.tsx:33-35 | without a crypto source each byte is `floor(random*256)` |
| InboundForm.Form.constructor | web/src/components/AddInboundModal/useInboundForm.ts:7-57 | the form starts at `InitialValues` |
| InboundForm.Form.ResetForm | web/src/components/AddInboundModal/useInboundForm.ts:59-102 | the form becomes `ResetValues` of its previous values with a random port |
| InboundForm.Form.OnOpen | web/src/components/AddInboundModal/useInboundForm.ts:104-187 | opening with an inbound rehydrates, opening without one resets, a closed form is left unchanged |
| InboundForm.Form.SetSecurity | web/src/components/AddInboundModal/useInboundForm.ts:41 | only the security field changes |
| InboundForm.Form.SetRealityShortIds | web/src/components/AddInboundModal/useInboundForm.ts:49 | only the short ids change |
| InboundForm.Form.SetRealityKeys | web/src/components/AddInboundModal/useInboundForm.ts:47-48 | only the two keys change |
| InboundForm.Form.SetTotalTraffic | web/src/components/AddInboundModal/useInboundForm.ts:13 | only the traffic text changes |
| AddInboundModal.Modal.constructor | web/src/components/AddInboundModal/index.tsx:10-15 | the dialog starts closed with nothing being edited |
| AddInboundModal.Modal.Open | web/src/components/AddInboundModal/useInboundForm.ts:104-187 | the dialog opens on the given inbound; the form rehydrates from it, or resets for a new one |
| AddInboundModal.Modal.Close | web/src/components/AddInboundModal/index.tsx:170 | closing clears only the open flag |
| AddInboundModal.Modal.OnTotalTrafficInput | web/src/components/AddInboundModal/index.tsx:271-276 | only digit-only text reaches the form, so a digits-only limit stays digits-only |
| AddInboundModal.Modal.GenerateShortIds | web/src/components/AddInboundModal/index.tsx:28-40 | 8 lower-case hex digits, from the crypto bytes when there are some (read back as those bytes) and else from `Math.random`; nothing else changes |
| AddInboundModal.Modal.GenerateRealityKeys | web/src/components/AddInboundModal/index.tsx:17-26 | the server's key pair is stored; a failed request alerts and leaves both keys as they were |
| AddInboundModal.Modal.OnSecurityChange | web/src/components/AddInboundModal/index.tsx:392-402 | security is set; choosing reality fills a short id only if there is none and a key pair only if the private key is empty; an alert iff that key request failed; nothing else changes |
| AddInboundModal.Modal.Send | web/src/components/AddInboundModal/index.tsx:164-169 | an update request when editing, a create request otherwise; a successful answer refetches the list; a thrown error is passed on |
| AddInboundModal.Modal.HandleConfirm | web/src/components/AddInboundModal/index.tsx:42-175 | a failed check alerts with its key and sends nothing; otherwise the record goes to update or add, and the dialog closes iff the store did not throw |
| AddInboundModal.Modal.Dispatch | web/src/components/AddInboundModal/index.tsx:164-174 | the confirm path after the checks: alert, or send and close unless the store threw |
| LegacyModal.RandomKey | web/src/components/AddInboundModal.tsx:235-246 | a key is 32 random bytes in base64: 44 characters that decode back to those bytes |
| LegacyModal.UnfilteredTrafficIsNaN | web/src/components/AddInboundModal.tsx:380 | the unfiltered traffic input lets "1g" through, which submits a NaN limit |
| LegacyModal.Modal.constructor | web/src/components/AddInboundModal.tsx:10-13 | the dialog starts closed with nothing being edited |
| LegacyModal.Modal.GenerateRealityKeys | web/src/components/AddInboundModal.tsx:235-246 | both keys are set from independent random bytes and the private key is never empty; nothing else changes |
| LegacyModal.Modal.GenerateShortIds | web/src/components/AddInboundModal.tsx:248-253 | the short id is the 4 bytes as 8 hex digits, reading back as those bytes |
| LegacyModal.Modal.Open | web/src/components/AddInboundModal.tsx:88-233 | an edited inbound rehydrates the form; a new one resets it and then gets a fresh key pair |
| LegacyModal.Modal.OnTotalTrafficInput | web/src/components/AddInboundModal.tsx:490-493 | whatever was typed is stored |
| LegacyModal.Modal.OnSecurityChange | web/src/components/AddInboundModal.tsx:611-616 | security is set; reality fills the short id only when empty; the keys are never touched |
| LegacyModal.Modal.Send | web/src/components/AddInboundModal.tsx:386-390 | update when editing, add otherwise; a successful answer refetches the list |
| LegacyModal.Modal.HandleConfirm | web/src/components/AddInboundModal.tsx:256-391 | the same checks and record as the newer dialog; a failed check alerts and keeps the dialog as it was; otherwise the record is sent and the dialog closes whatever the store does |
| LegacyModal.Modal.Dispatch | web/src/components/AddInboundModal.tsx:256-265 | alert on a failed check; otherwise send and close |
| SettingStore.CollapseSlashes | web/src/store/useSettingStore.ts:50 | `replace(/\/+/g, '/')` keeps the first and last characters, leaves no "//", and changes nothing when there is none |
| SettingStore.LeadSlash | web/src/store/useSettingStore.ts:53-55 | the result starts with '/', a rooted text is unchanged, and no "//" appears |
| SettingStore.TrailSlash | web/src/store/useSettingStore.ts:58-60 | a rooted text without "//" ends with '/' afterwards, and one that already did is unchanged |
| SettingStore.PanelRoot | web/src/store/useSettingStore.ts:49-60 | the normalised root starts and ends with '/' and holds no "//" |
| SettingStore.NormalizeWebRoot | web/src/store/useSettingStore.ts:49-60 | the step-by-step reassignment of the local root returns exactly `PanelRoot` |
| SettingStore.PanelRootIdempotent | web/src/store/useSettingStore.ts:49-60 | normalising a normalised root changes nothing |
| SettingStore.BlankRootIsTop | web/src/store/useSettingStore.ts:49-60 | "" and "/" both become "/" |
| SettingStore.SavedRootServedAsIs | web/src/store/useSettingStore.ts:49-60 | the backend's own normalisation leaves a root the settings page saved unchanged |
| SettingStore.RedirectUrl | web/src/store/useSettingStore.ts:82-85 | the new address starts with `protocol//hostname:` |
| SettingStore.RedirectUrlEndsWithRoot | web/src/store/useSettingStore.ts:85 | the new address ends with the normalised root |
| SettingStore.PreConfirmCheck | web/src/store/useSettingStore.ts:113-129 | in order: a non-empty new name that is not alphanumeric, a non-empty new password that is not, a new name equal to the old one with no new password; each rejection holds iff the earlier checks passed and its own failed; no rejection iff none of these holds; the missing-old-credential rejections never come from this check |
| SettingStore.RequestFor | web/src/store/useSettingStore.ts:132-159 | old credentials sent as typed; the new name is the new one if given, else the old one, else "admin"; the new password is the new one if given, else the old one |
| SettingStore.SettingStore.constructor | web/src/store/useSettingStore.ts:5-21 | the store starts from the page's panel settings, an empty credential form and no saved panel |
| SettingStore.SettingStore.UpdatePanel | web/src/store/useSettingStore.ts:23-32 | only the supplied fields change; the port becomes the number read from the text, 0 when that is NaN or 0 |
| SettingStore.SettingStore.UpdateAuth | web/src/store/useSettingStore.ts:34-36 | the supplied credential fields are merged over the form; nothing else changes |
| SettingStore.SettingStore.StoreWebRoot | web/src/store/useSettingStore.ts:64-68 | panel and saved panel both become the current panel with only the root replaced |
| SettingStore.SettingStore.SavePanelConfig | web/src/store/useSettingStore.ts:39-105 | a port outside 1..65535 is refused with no state change; otherwise both panels take the normalised root, the write fails iff the backend refused, and the redirect goes to `protocol//hostname:port` plus the root |
| SettingStore.SettingStore.ConfirmUpdateAuth | web/src/store/useSettingStore.ts:108-180 | the pre-confirm checks, then the user's answer, then missing old name or password rejected before any request; success sends `RequestFor`, clears the four fields and logs out; a failure shows the backend's message or the default one and changes nothing |
| SettingStore.PasswordOnlyChange | web/src/store/useSettingStore.ts:125-133 | with no new name the old name is sent again, and the change passes the checks iff the new password is empty or alphanumeric |
| SettingsPage.Filter | web/src/views/SettingsPage.tsx:127-221 | `replace(/[^…]/g, '')` keeps only accepted characters, never lengthens the text, and leaves acceptable text unchanged |
| SettingsPage.FilterAppend | web/src/views/SettingsPage.tsx:127-221 | filtering text piece by piece gives the filtered whole |
| SettingsPage.FilterKeepsAccepted | web/src/views/SettingsPage.tsx:127-221 | a character survives iff it was typed and is accepted |
| SettingsPage.FilterIdempotent | web/src/views/SettingsPage.tsx:127-221 | filtering twice is filtering once |
| SettingsPage.FilteredUsernameAlphanumeric | web/src/views/SettingsPage.tsx:221-222 | a non-empty filtered user name passes the store's alphanumeric check |
| SettingsPage.FieldError | web/src/views/SettingsPage.tsx:24-36 | no error iff the value is empty or alphanumeric, otherwise the alphanumeric error |
| SettingsPage.SettingsPage.constructor | web/src/views/SettingsPage.tsx:21 | the page starts on the panel tab with no errors |
| SettingsPage.SettingsPage.ValidateField | web/src/views/SettingsPage.tsx:24-36 | the field's error is set iff `FieldError` gives one; the other field's error is kept |
| SettingsPage.SettingsPage.SelectTab | web/src/views/SettingsPage.tsx:48-62 | only the active tab changes |
| SettingsPage.SettingsPage.OnWebRootInput | web/src/views/SettingsPage.tsx:124-129 | the root becomes the typed text without the characters outside `[A-Za-z0-9/_.-]` |
| SettingsPage.SettingsPage.OnWebRootBlur | web/src/views/SettingsPage.tsx:130-135 | a whitespace-only root becomes "/panel/"; any other root is kept |
| SettingsPage.SettingsPage.OnPortInput | web/src/views/SettingsPage.tsx:114 | the port becomes `Number(value)`, with NaN and zero stored as 0 |
| SettingsPage.SettingsPage.OnUsernameInput | web/src/views/SettingsPage.tsx:183-223 | the old or new name becomes the typed text without non-alphanumerics |
| SettingsPage.SettingsPage.HandleSave | web/src/views/SettingsPage.tsx:48-62 | the panel tab saves the panel (refused iff the port is out of range), the user tab submits the credentials, any other tab changes nothing |
| RealityKeys.SecondField | backend/src/handlers/xray.rs:43-45 | `line.split(':').nth(1).unwrap_or("").trim()`: empty or without whitespace at either end |
| RealityKeys.ReadKeyLine | backend/src/handlers/xray.rs:42-46 | a line changes the private key only if it starts "PrivateKey:" and the public key only if it starts "Password:" |
| RealityKeys.ReadKeyLines | backend/src/handlers/xray.rs:41-47 | a key changes only when some line starts with its label |
| RealityKeys.ReadLine | backend/src/handlers/xray.rs:42-46 | the loop body takes a `PrivateKey:` or `Password:` line's field into that key and ignores any other line, as one step of the line reader |
| RealityKeys.KeysOutcome | backend/src/handlers/xray.rs:16-57 | 500 when the process did not run or exited unsuccessfully, or when either key is empty; otherwise both keys, non-empty |
| RealityKeys.GenerateRealityKeys | backend/src/handlers/xray.rs:16-57 | the line loop and emptiness check return exactly `KeysOutcome` |
| RealityKeys.ReadKeyLinesAppend | backend/src/handlers/xray.rs:41-47 | reading two runs of lines is reading the first and then the second |
| RealityKeys.SecondFieldOf | backend/src/handlers/xray.rs:43-45 | the field after a heading whose only ':' ends it is the key |
| RealityKeys.PrivateKeyLine | backend/src/handlers/xray.rs:42-43 | a "PrivateKey: k" line sets the private key to k and leaves the public key |
| RealityKeys.PublicKeyLine | backend/src/handlers/xray.rs:44-45 | a "Password: k" line sets the public key to k and leaves the private key |
| RealityKeys.PublicLineShape | backend/src/handlers/xray.rs:44 | the public-key heading is "Password:", which never passes for the private-key heading |
| RealityKeys.KeygenLines | backend/src/handlers/xray.rs:35-41 | xray's two-line output splits into the two labelled lines |
| RealityKeys.KeysRoundTrip | backend/src/handlers/xray.rs:32-57 | reading what `xray x25519` prints gives back both keys |
| RealityKeys.LaterKeyWins | backend/src/handlers/xray.rs:41-47 | a later "PrivateKey:" line replaces what an earlier one set |
| RealityKeys.IndentedLineIgnored | backend/src/handlers/xray.rs:42-46 | a line with leading whitespace changes nothing |
| RealityKeys.MissingPublicKeyFails | backend/src/handlers/xray.rs:49-52 | output with no public-key line gives 500 |
| Startup.FirstFlag | backend/src/main.rs:89-91 | `position` finds the first argument spelled either way, and none iff neither spelling is present |
| Startup.FlagValue | backend/src/main.rs:89-92 | a flag's value is the argument right after one of its spellings |
| Startup.ChooseAction | backend/src/main.rs:66-109 | help iff there are arguments and `--help`/`-h` is among them; the reset iff there are arguments, no help flag and `--reset`/`-r`; the credential update iff there are arguments, neither flag, and both `--user`/`-u` and `--password`/`-p` carry a value, which it holds; the server start iff none of these applies |
| Startup.HalfCredentialsStart | backend/src/main.rs:89-108 | a user name without a password leaves the server to start normally |
| Startup.TrailingFlagIgnored | backend/src/main.rs:90-92 | a flag given last has no value |
| Startup.NormalisedRoot | backend/src/main.rs:144-151 | the root starts and ends with '/', is the raw text framed by at most one added slash on each side, and a root that already starts and ends with '/' is unchanged |
| Startup.NormaliseWebRoot | backend/src/main.rs:144-151 | the step-by-step rewriting of WEB_ROOT (default "/") returns exactly `NormalisedRoot` |
| Startup.NormaliseTwice | backend/src/main.rs:144-151 | normalising the stored root again, as the router does, changes nothing |
| Startup.SlashesNotCollapsed | backend/src/main.rs:144-151 | "//panel" becomes "//panel/": repeated slashes are kept |
| Startup.BasePath | backend/src/main.rs:273 | `trim_end_matches('/')` is a prefix of the root followed only by slashes, and does not end with '/' |
| Startup.MountOf | backend/src/main.rs:281-285 | the router is served un-nested iff the base path is empty |
| Startup.MountOfRoot | backend/src/main.rs:262-285 | the router is un-nested iff WEB_ROOT is made only of slashes; otherwise it is nested under a path that starts with '/' |
| Startup.BaseOfPadded | backend/src/main.rs:273 | the base path of a slash-framed root is empty iff the root is all slashes |
| Startup.IndexPage | backend/src/main.rs:237-242 | a page without the "{{WEB_ROOT}}" placeholder is served unchanged |
| Startup.PlaceholderReplaced | backend/src/main.rs:242 | every placeholder is replaced by the web root, left to right |
| Startup.NoStraddlingPlaceholder | backend/src/main.rs:242 | no `{{WEB_ROOT}}` starts inside another one, so the text before a placeholder cannot hide one that overlaps it |
| Startup.FirstUsable | backend/src/main.rs:221-226 | the first candidate that is non-empty and exists; none only when no candidate qualifies |
| Startup.DistPath | backend/src/main.rs:210-226 | the asset directory is the fallback "./bin/dist" or a usable candidate, and a usable one whenever some candidate is |
| Startup.SelectDistPath | backend/src/main.rs:210-226 | the search loop with its `break` returns the first usable candidate, or "./bin/dist" when none is |
| Startup.EnvDistWins | backend/src/main.rs:210-226 | an existing WEB_DIST_PATH always wins, and an empty one is skipped |
| Startup.FirstUsableAgrees | backend/src/main.rs:221-226 | candidate lists usable at the same positions stop at the same position |
| SystemService.WithV | backend/src/services/system_service.rs:412-416 | the reported version always starts with 'v'; one already starting with 'v' is kept, otherwise 'v' is prefixed to it |
| SystemService.VersionInLine | backend/src/services/system_service.rs:575-587 | a banner line yields a version exactly when it has at least two whitespace-separated words, and that version starts with 'v' |
| SystemService.XrayVersion | backend/src/services/system_service.rs:562-591 | no version when the binary could not be run or exited unsuccessfully |
| SystemService.VersionLabel | backend/src/services/system_service.rs:79 | the report shows "Unknown" iff no version was found, and otherwise the found version, which starts with 'v' |
| SystemService.FirstLineOf | backend/src/services/system_service.rs:575 | the first of the output's lines is the text before the first newline |
| SystemService.VersionOfBanner | backend/src/services/system_service.rs:562-591 | for a successful run whose first line is "Xray 1.8.4 …", the version is the second word with a 'v' in front |
| SystemService.OneWordNoVersion | backend/src/services/system_service.rs:576-590 | a first line of one word gives no version |
| SystemService.XrayArch | backend/src/services/system_service.rs:398-408 | x86_64 maps to "64", aarch64 to "arm64-v8a", and every other architecture is an "Unsupported architecture" system error |
| SystemService.DownloadUrl | backend/src/services/system_service.rs:412-422 | the download URL fails exactly when the architecture is unsupported, with that same error |
| SystemService.DownloadUrlNamesTag | backend/src/services/system_service.rs:412-422 | the URL is the releases prefix followed by the 'v'-tag and the zip asset for the mapped architecture, so the tag can be read back |
| SystemService.Tagged | backend/src/services/system_service.rs:225-242 | every collected line is its file's tag followed by the line, in file order |
| SystemService.Newest | backend/src/services/system_service.rs:231-253 | keeping the last n lines keeps min(n, length) lines and they are the suffix of the input |
| SystemService.AccessPart | backend/src/services/system_service.rs:229-243 | at most 50 access-log lines are taken |
| SystemService.ExtendTagged | backend/src/services/system_service.rs:225-242 | extending the collected lines appends the tagged lines after the ones already there |
| SystemService.JournalAnswer | backend/src/services/system_service.rs:256-276 | the journal answer is used only when it has lines other than a lone "-- No entries --" line |
| SystemService.LogsOutcome | backend/src/services/system_service.rs:215-276 | the answer comes from the files iff they hold a line, and is then their last 200 lines (all of them when fewer) in order; otherwise it is the journal's answer, never an empty journal list |
| SystemService.GetLogs | backend/src/services/system_service.rs:215-276 | the file lines (error lines, then the last 50 access lines) cut to the last 200, or when there are none the journal, or the fallback |
| SystemService.NewestOfAppend | backend/src/services/system_service.rs:246-253 | cutting an append to its last n lines never cuts a tail shorter than n |
| SystemService.FileLogsShape | backend/src/services/system_service.rs:215-253 | the access part is never cut; error lines fill what is left of the 200, newest kept |
| SystemService.NewestAccessLineLast | backend/src/services/system_service.rs:229-253 | when the access log has content, the answer comes from the files and its last line is the access log's last line |
| SystemService.ConnectionCounts | backend/src/services/system_service.rs:544-559 | (0, 0) when the command could not run or printed fewer than two lines |
| SystemService.DecimalCount | backend/src/services/system_service.rs:553-554 | a count printed in decimal parses back to itself |
| SystemService.CountsRoundTrip | backend/src/services/system_service.rs:544-559 | two counts printed on two lines are read back as (tcp, udp) |
| SystemService.GarbageCountIsZero | backend/src/services/system_service.rs:553 | a first line that is no number counts as 0 TCP connections |
| SystemService.LaunchResult | backend/src/services/system_service.rs:355-383 | starting succeeds exactly when every launch step succeeded; each failure is a system error naming the step |
| SystemService.SystemMonitor.constructor | backend/src/services/system_service.rs:29-36 | a new monitor reports xray as running |
| SystemService.SystemMonitor.XrayState | backend/src/services/system_service.rs:73-143 | the state is "running" exactly when the running flag is set, otherwise "stopped" |
| SystemService.SystemMonitor.SetMockRunning | backend/src/services/system_service.rs:145-147 | the flag takes the given value |
| SystemService.SystemMonitor.StopXray | backend/src/services/system_service.rs:305-325 | stopping always succeeds and leaves the state "stopped" |
| SystemService.SystemMonitor.StartXray | backend/src/services/system_service.rs:330-384 | the state becomes "running" before launching, whatever the launch gives back, and the result is that of the launch |
| SystemService.SystemMonitor.RestartXray | backend/src/services/system_service.rs:387-391 | a restart is a stop followed by a start: running afterwards, with the start's result |
| SystemService.SumMonotone | backend/src/services/system_service.rs:58-63 | a sum over disks or interfaces grows with the summed quantity |
| SystemService.SumNonNegative | backend/src/services/system_service.rs:58-63 | a sum of non-negative quantities is non-negative |
| SystemService.DiskSums | backend/src/services/system_service.rs:58-63 | the totals are the sums of capacities and used space; used never exceeds capacity, and is non-negative when no disk reports more free than total space |
| SystemService.NetworkSums | backend/src/services/system_service.rs:91-100 | the four network figures are the sums over all interfaces |
| SystemService.IntervalWithinTotals | backend/src/services/system_service.rs:91-100 | when each interface's interval traffic is within its totals, so are the sums |
| StoredInbound.TagOf | backend/src/services/traffic_service.rs:53-56 | an inbound is counted under its own tag, or under "inbound-" followed by its id when it has none |
| StoredInbound.DefaultTagsDistinct | backend/src/services/xray_service.rs:58-61 | two untagged inbounds get the same default tag exactly when their ids are equal |
| TrafficService.FieldAfter | backend/src/services/traffic_service.rs:145-149 | a line starting with the key always has a part after it |
| TrafficService.ValueOfField | backend/src/services/traffic_service.rs:152-153 | a parsed value lies within the i64 range |
| TrafficService.FieldOf | backend/src/services/traffic_service.rs:143-159 | a line yields a value only within the i64 range |
| TrafficService.NamedIn | backend/src/services/traffic_service.rs:144-147 | a "name:" line can only set the current name |
| TrafficService.ValuedIn | backend/src/services/traffic_service.rs:148-158 | a "value:" line can only carry an i64 value |
| TrafficService.Absorb | backend/src/services/traffic_service.rs:142-159 | one line changes at most the current counter's entry, never records the empty name, and a line that changes the name records nothing |
| TrafficService.ScanLines | backend/src/services/traffic_service.rs:142-160 | scanning never records a counter under the empty name |
| TrafficService.ScanLinesAppend | backend/src/services/traffic_service.rs:142-160 | scanning two pieces of output one after the other is scanning them joined |
| TrafficService.StatsOfText | backend/src/services/traffic_service.rs:131-162 | the counters read from the output never include the empty name |
| TrafficService.QueryOutcome | backend/src/services/traffic_service.rs:110-163 | a failed spawn is a system error, an unsuccessful exit gives no counters, and no counter has the empty name |
| TrafficService.QueryAllXrayStats | backend/src/services/traffic_service.rs:110-163 | the line loop gives the counters the line-by-line reading defines |
| TrafficService.AbsorbLine | backend/src/services/traffic_service.rs:143-159 | one trimmed line of output as the line-reading function defines it: a `name:` line replaces the current name, a `value:` line that parses as an i64 is stored under a non-empty current name, anything else changes nothing |
| TrafficService.NameLineField | backend/src/services/traffic_service.rs:144-147 | an indented `name: "X"` line names counter X |
| TrafficService.ValueLineField | backend/src/services/traffic_service.rs:148-158 | an indented `value: N` line carries N for every N in the i64 range |
| TrafficService.FrameLineField | backend/src/services/traffic_service.rs:136-139 | the `stat: <` and `>` lines carry nothing |
| TrafficService.BlockAbsorbed | backend/src/services/traffic_service.rs:135-160 | one printed stat block records its counter under its name and makes that name current |
| TrafficService.RenderAbsorbed | backend/src/services/traffic_service.rs:135-160 | a sequence of stat blocks records each counter, later blocks overriding earlier ones of the same name |
| TrafficService.StatsRoundTrip | backend/src/services/traffic_service.rs:131-162 | the counters printed in xray's text format are read back as the same map |
| TrafficService.ValueWithoutNameIgnored | backend/src/services/traffic_service.rs:154-156 | a value before any name is dropped |
| TrafficService.NamePersists | backend/src/services/traffic_service.rs:133-155 | a value in a block without a name is recorded under the name last seen |
| TrafficService.CounterOf | backend/src/services/traffic_service.rs:61-62 | a missing counter reads as 0, a present one as its value |
| TrafficService.ChargeInbound | backend/src/services/traffic_service.rs:58-83 | a write is for the inbound's id and disables it exactly when the quota is reached |
| TrafficService.Writes | backend/src/services/traffic_service.rs:51-97 | at most one write per inbound |
| TrafficService.WritesExtend | backend/src/services/traffic_service.rs:51-97 | the writes follow the order of the inbounds |
| TrafficService.ChargeWhen | backend/src/services/traffic_service.rs:64-83 | with traffic reported, the write adds it to the stored counts and sets enable from the quota |
| TrafficService.NoChargeWhen | backend/src/services/traffic_service.rs:64 | with no traffic reported, nothing is written |
| TrafficService.ChargedRowRespectsQuota | backend/src/services/traffic_service.rs:67-74 | after its write an inbound is enabled exactly when it is unlimited or still below its quota |
| TrafficService.ChargeAddsReportedTraffic | backend/src/services/traffic_service.rs:58-66 | a write happens exactly when traffic was reported, and adds exactly what was reported |
| TrafficService.ReportedTrafficCharged | backend/src/services/traffic_service.rs:53-83 | the uplink and downlink counters xray prints for an inbound's tag become one write adding both |
| TrafficService.KeysDiffer | backend/src/services/traffic_service.rs:58-59 | the uplink and downlink keys of a tag never coincide |
| TrafficService.KeysFrameTag | backend/src/services/traffic_service.rs:58-59 | the uplink and downlink stat names hold the tag between the fixed 10-character prefix "inbound>>>" and a suffix ending in "uplink" or "downlink" |
| TrafficService.CounterNamesDistinct | backend/src/services/traffic_service.rs:58-59 | distinct tags read distinct uplink and distinct downlink counters, and no uplink name equals any downlink name |
| TrafficService.QuotaReached | backend/src/services/traffic_service.rs:70 | a quota of zero or less never disables; a positive quota is reached iff uplink plus downlink is at least the quota |
| TrafficService.UpdateTrafficStats | backend/src/services/traffic_service.rs:25-107 | no query and no write without enabled inbounds; otherwise the writes of all inbounds in order, and a reapply exactly when some write disabled its inbound |
| TrafficService.ChargeNext | backend/src/services/traffic_service.rs:50-96 | one pass of the per-inbound loop extends the writes by that inbound's write, if any, and the reapply flag is raised exactly when some write so far disables its inbound |
| TrafficService.ChargeRow | backend/src/services/traffic_service.rs:53-74 | the per-inbound step: a write exactly when the uplink or downlink counter of the inbound's tag is positive, with both totals increased by the counters and the inbound disabled exactly when its quota is reached |
| TestParser.DigitsOf | test_parser.rs:63 | keeping the ASCII digits of a text gives only digits, never more characters than the text |
| TestParser.DigitsOfAppend | test_parser.rs:63 | the digits of a concatenation are the digits of each part, in order |
| TestParser.QuotedIn | test_parser.rs:50-52 | the text found between the first two quotes contains no quote |
| TestParser.NameAsWritten | test_parser.rs:48-58 | a name is extracted only from a line mentioning "name" |
| TestParser.NameCorrected | test_parser.rs:48-58 | a name is extracted only from a line mentioning "name" |
| TestParser.ValueOf | test_parser.rs:61-69 | an extracted value is a non-negative i64, since only digits are kept |
| TestParser.RunAppend | test_parser.rs:28-70 | running the loop over two blocks of lines is running it over the first and then the second |
| TestParser.ParseStats | test_parser.rs:24-70 | the loop gives the map the line-by-line step function defines |
| TestParser.StepLine | test_parser.rs:29-69 | one trimmed line as the step function defines it: a closing brace stores a complete pair and clears both halves before the same line's name and value are read |
| TestParser.Step | test_parser.rs:29-69 | one line never removes a stored name and adds at most the pending one; a line that does not open with '}' leaves the stored pairs alone; pending and stored values stay counters between 0 and the i64 maximum |
| TestParser.Run | test_parser.rs:28-70 | reading lines never removes a stored name, and keeps pending and stored values counters between 0 and the i64 maximum |
| TestParser.BoundaryBeforeExtraction | test_parser.rs:34-45 | a line starting with '}' first stores the pending name and value when both are set, then clears them before any extraction on the same line |
| TestParser.NoBoundaryKeepsStats | test_parser.rs:34-69 | any other line leaves the map alone and only overwrites the pending name or value it carries |
| TestParser.NameLineAsWritten | test_parser.rs:48-58 | for every line `"name": "X"…` the code as written extracts the two characters ": " rather than X |
| TestParser.NameLineCorrected | test_parser.rs:48-58 | extracting from after the key's closing quote gives X |
| TestParser.ValueLineValue | test_parser.rs:61-69 | a `"value": N` line yields N for every N in the i64 range |
| TestParser.NegativeValueLosesSign | test_parser.rs:63 | a negative value is read without its sign |
| TestParser.OverflowHasNoValue | test_parser.rs:64 | a value beyond the i64 range yields nothing |
| TestParser.OverflowKeepsValue | test_parser.rs:64-67 | such a line leaves the pending value as it was |
| TestParser.EntryEffect | test_parser.rs:28-70 | one object of the document records its name and value when it has a value, under the name the extraction gives |
| TestParser.EntriesEffect | test_parser.rs:28-70 | the objects of the document are recorded one after the other |
| TestParser.DocumentEffect | test_parser.rs:4-70 | a whole document in the sample's layout gives the records of its entries |
| TestParser.RecordsAsWrittenKeys | test_parser.rs:48-58 | as written, every entry is stored under the one key ": ", so at most one entry survives |
| TestParser.RecordsCorrectedKeys | test_parser.rs:48-58 | corrected, an entry with a value is stored under its own name |
| TestParser.DocumentLines | test_parser.rs:4-28 | the document's text splits back into its lines |
| TestParser.ParseDocument | test_parser.rs:24-70 | parsing a document's text gives the records of its entries |
| TestParser.SampleAsWritten | test_parser.rs:4-70 | as written, the sample yields the single entry ": " = 362637 |
| TestParser.SampleCorrected | test_parser.rs:4-70 | corrected, the sample yields its three counters with values, and not the valueless first one |
| Uuid.VariantNibble | web/src/utils/uuid.ts:13-14 | the variant digit is 8, 9, a or b and keeps the random value's two low bits |
| Uuid.Fill | web/src/utils/uuid.ts:12-16 | replacing the template's slots keeps every other character; x slots become hex digits, y slots one of 8, 9, a, b |
| Uuid.TemplateSlots | web/src/utils/uuid.ts:12 | the template has 31 random slots |
| Uuid.GenerateUuid | web/src/utils/uuid.ts:5-17 | the platform's `randomUUID` answer is returned unchanged when there is one; otherwise the result is a version-4 UUID: 36 characters, dashes at 8, 13, 18 and 23, '4' at 14, a variant digit at 19, lower-case hex elsewhere |
| Uuid.TemplateFillsUuidV4 | web/src/utils/uuid.ts:12-16 | filling the template's 31 slots with any nibbles gives a version-4 UUID |
| Uuid.ReadFill | web/src/utils/uuid.ts:12-16 | the random values can be read back from the UUID's slots: all of an x slot's value, the low two bits of a y slot's |
| Validation.ValidateUsername | backend/src/utils/validation.rs:9-26 | a username is accepted exactly when its UTF-8 length is 3 to 32 and it is made only of ASCII letters, digits, '_' and '-'; the length error comes first, then the format error |
| Validation.ValidatePassword | backend/src/utils/validation.rs:30-54 | a password is accepted exactly when its UTF-8 length is 4 to 128, with a distinct message for too short and too long |
| Validation.AcceptedUsernameLength | backend/src/utils/validation.rs:11-18 | an accepted username also has 3 to 32 characters |
| Validation.PasswordContentIrrelevant | backend/src/utils/validation.rs:30-54 | only a password's length decides its verdict |
| Validation.UsernameVerdictOfAscii | backend/src/utils/validation.rs:9-26 | for ASCII input the byte length is the character count |
| Validation.UsernameTestsAccepted | backend/src/utils/validation.rs:128-133 | "admin", "user_123" and "test-user" are accepted |
| Validation.UsernameTestsRejected | backend/src/utils/validation.rs:135-139 | "ab" and 33 letters fail the length check; "user@123" and "user 123" fail the format check |
| Validation.PasswordTests | backend/src/utils/validation.rs:142-152 | "1234", "admin" and "password123" are accepted; "123" is too short and 129 letters too long |
| Validation.LengthCheckedFirst | backend/src/utils/validation.rs:11-23 | a name both too long and badly formed gets the length message |
| ApiErrors.IntoResponse | backend/src/errors/mod.rs:45-88 | every error answers with success false; 500 exactly for database, internal, hashing and system errors, 401 for unauthorized and token errors, 400 for bad requests; the message is the error's own unless it hides its detail |
| ApiErrors.HiddenDetailIsNotObservable | backend/src/errors/mod.rs:48-74 | database and token errors of different detail answer alike |
| ApiErrors.HiddenDetailMessages | backend/src/errors/mod.rs:48-74 | those answer "Database error", "Invalid token" and "Authentication error" |
| ApiErrors.Display | backend/src/errors/mod.rs:17-43 | each error's text is its kind's prefix followed by its detail |
| ApiErrors.DisplayRecoversDetail | backend/src/errors/mod.rs:17-43 | the detail can be read back from the text after the prefix |
| ApiErrors.ResponseIsDisplayWithoutPrefix | backend/src/errors/mod.rs:17-77 | for errors that show their detail, the response message is the error text without its prefix |
| XrayService.DefaultRule | backend/src/services/xray_service.rs:193-205 | the default routing rule is a "field" rule with nothing else set |
| XrayService.ParsedColumn | backend/src/services/xray_service.rs:63-86 | an absent or unparsable JSON column is left out of the configuration |
| XrayService.InboundOf | backend/src/services/xray_service.rs:56-89 | an inbound's entry carries its counting tag, port, protocol and listen address |
| XrayService.EnabledRows | backend/src/services/xray_service.rs:12-14 | only enabled rows are selected, none is invented |
| XrayService.EnabledRowsComplete | backend/src/services/xray_service.rs:12-14 | every enabled row is selected |
| XrayService.EnabledRowsFromTable | backend/src/services/xray_service.rs:12-14 | every selected row comes from the table |
| XrayService.ApiRule | backend/src/services/xray_service.rs:140-145 | the one routing rule sends the "api" inbound to the "api" outbound |
| XrayService.ApplyConfig | backend/src/services/xray_service.rs:10-150 | the configuration has error-level logging to the two log files, the API with its three services, the API inbound on 127.0.0.1:10085 followed by one entry per enabled inbound in order, stats on, the level-0 and system stats policies, the direct and blocked outbounds, and IPIfNonMatch routing with the API rule |
| XrayService.ConfigTagsDistinct | backend/src/services/xray_service.rs:43-90 | inbounds with distinct tags other than "api" give a configuration whose inbound tags are all distinct |
| XrayService.ConfigTagIsCountingTag | backend/src/services/xray_service.rs:56-61 | each inbound is configured under the tag its traffic is counted by, "inbound-" with its id when it has none |
| ApiClient.Session.constructor | web/src/store/useAuthStore.ts:15-16 | a new session is logged out and holds no token |
| ApiClient.Session.Login | web/src/store/useAuthStore.ts:20-23 | a successful login records the token and marks the session authenticated |
| ApiClient.Session.Logout | web/src/store/useAuthStore.ts:31 | logging out forgets the token and the authenticated flag |
| ApiClient.InjectedRoot | web/src/api/apiClient.ts:32-34 | the injected web root is used when set, non-empty and not the unreplaced placeholder; otherwise "/" |
| ApiClient.BaseUrl | web/src/api/apiClient.ts:31-38 | the API base starts with the root and ends with "/api", adding at most a '/' and "api" |
| ApiClient.BaseUrlOfServedRoot | web/src/api/apiClient.ts:31-38 | for any root the backend injects, the API lives directly under that root |
| ApiClient.UnreplacedRootIsTop | web/src/api/apiClient.ts:32-34 | a page without a usable root talks to "/api" |
| ApiClient.RequestConfig.constructor | web/src/api/apiClient.ts:45-46 | a request starts with its own URL and headers |
| ApiClient.RequestConfig.InterceptRequest | web/src/api/apiClient.ts:46-55 | every request gets the computed base address; a "Bearer" Authorization header is added exactly when a non-empty token is held, other headers untouched |
| ApiClient.ShouldLogout | web/src/api/apiClient.ts:70-74 | only a 401 logs out, and a 401 from a URL without "/auth/" always does |
| ApiClient.ContainsLonger | web/src/api/apiClient.ts:72-74 | a URL holding an auth path holds its "/auth/" prefix |
| ApiClient.OnResponseError | web/src/api/apiClient.ts:65-92 | the error is always passed on; a 401 from anything but the login and credential-update calls logs out, everything else leaves the session alone |
| ApiClient.LoginNeverLogsOut | web/src/api/apiClient.ts:70-79 | a failed login never triggers the logout |
| InboundStore.Decode | web/src/store/useInboundStore.ts:31-34 | a column sent as text is parsed, an object kept, an absent one stays absent, and a parse failure throws its error |
| InboundStore.ProcessItem | web/src/store/useInboundStore.ts:29-35 | an entry keeps all its other fields and fails exactly when one of its four columns fails to parse |
| InboundStore.DecodedItemKept | web/src/store/useInboundStore.ts:29-35 | an entry whose columns are objects is kept as it came |
| InboundStore.EncodedLikeDecoded | web/src/store/useInboundStore.ts:29-35 | columns sent as parsable text give the same entry as the objects would |
| InboundStore.ProcessAll | web/src/store/useInboundStore.ts:29-35 | every entry is processed, in order; a failure is the first failing entry's |
| InboundStore.FetchedList | web/src/store/useInboundStore.ts:24-41 | the list is kept unless the answer is successful; a successful answer with no list empties it; a successful answer whose every item processes gives the processed items, one per raw item in order; one with an item that fails keeps the list |
| InboundStore.FetchError | web/src/store/useInboundStore.ts:24-41 | a thrown request passes on its error; an unsuccessful answer throws nothing |
| InboundStore.FailedFetchKeepsList | web/src/store/useInboundStore.ts:24-41 | a fetch that throws leaves the list as it was |
| InboundStore.FetchReplacesList | web/src/store/useInboundStore.ts:28-36 | a successful fetch replaces the list whatever it held |
| InboundStore.AlertText | web/src/store/useInboundStore.ts:53 | the alert is the server's message when there is one, else the error's message, else "Unknown error", never empty |
| InboundStore.WithoutId | web/src/store/useInboundStore.ts:69-71 | deleting removes every entry with the id and changes nothing when there is none |
| InboundStore.WithoutIdAppend | web/src/store/useInboundStore.ts:69-71 | survivors keep their order |
| InboundStore.WithoutIdMembers | web/src/store/useInboundStore.ts:69-71 | exactly the entries with other ids survive |
| InboundStore.FindById | web/src/store/useInboundStore.ts:76 | the first entry with the id, or none exactly when no entry has it |
| InboundStore.FlipEnable | web/src/store/useInboundStore.ts:80-84 | entries with the id have their enable flag inverted, all others are unchanged |
| InboundStore.FlipEnableTwice | web/src/store/useInboundStore.ts:80-84 | toggling twice gives the list back |
| InboundStore.ZeroTraffic | web/src/store/useInboundStore.ts:91-95 | entries with the id show zero upload and download, all others are unchanged |
| InboundStore.ZeroTrafficIdempotent | web/src/store/useInboundStore.ts:91-95 | resetting twice is resetting once |
| InboundStore.ToggleReachesRequested | web/src/store/useInboundStore.ts:76-84 | after a successful toggle the found entry has the state that was requested |
| InboundStore.InboundStore.constructor | web/src/store/useInboundStore.ts:21-22 | the store starts with no inbounds and not loading |
| InboundStore.InboundStore.FetchInbounds | web/src/store/useInboundStore.ts:24-41 | the list becomes the fetched list, errors are passed on, and loading always ends false |
| InboundStore.InboundStore.AddInbound | web/src/store/useInboundStore.ts:43-57 | a successful create refetches; a refusal throws its message or "Failed to add inbound"; every thrown error is alerted and passed on, and only then |
| InboundStore.InboundStore.RefusedAddAlert | web/src/store/useInboundStore.ts:49-53 | a refused add shows the server's message or the default one |
| InboundStore.InboundStore.UpdateInbound | web/src/store/useInboundStore.ts:59-64 | only a successful answer refetches; a refusal does nothing and throws nothing |
| InboundStore.InboundStore.DeleteInbound | web/src/store/useInboundStore.ts:66-73 | only a successful answer removes the entries with the id |
| InboundStore.InboundStore.ToggleEnable | web/src/store/useInboundStore.ts:75-86 | no request for an unknown id; otherwise the opposite of the first match's state is requested, and a successful answer flips the entries with the id |
| InboundStore.InboundStore.ResetTraffic | web/src/store/useInboundStore.ts:88-96 | a local-only reset of the entries with the id |
| InboundStore.InboundStore.SetInbounds | web/src/store/useInboundStore.ts:98 | the list becomes the given one |
| InboundPage.CurrentTotals | web/src/views/InboundPage.tsx:31-39 | no inbounds total zero; totals of non-negative counters are non-negative |
| InboundPage.CurrentTotalsAppend | web/src/views/InboundPage.tsx:31-39 | the totals of a list are the sums of the totals of its parts |
| InboundPage.NonNegative | web/src/views/InboundPage.tsx:42-43 | the result is the larger of the value and 0 |
| InboundPage.Displayed | web/src/views/InboundPage.tsx:41-48 | the shown traffic is what accumulated beyond the baseline, 0 when the totals are at or below it |
| InboundPage.TrafficSinceReset | web/src/views/InboundPage.tsx:41-57 | after a reset, the page shows exactly the traffic of what came since |
| InboundPage.TrafficBaseline.constructor | web/src/views/InboundPage.tsx:26-29 | the baseline is the stored one, or zero when none is stored |
| InboundPage.TrafficBaseline.Shown | web/src/views/InboundPage.tsx:41-48 | the shown totals are never negative |
| InboundPage.TrafficBaseline.ResetTrafficStats | web/src/views/InboundPage.tsx:50-57 | the current totals become the baseline, in the page and in storage, and the page then shows zero |
| InboundPage.MatchingOf | web/src/views/InboundPage.tsx:75-79 | only matching inbounds are kept |
| InboundPage.FilteredInbounds | web/src/views/InboundPage.tsx:71-80 | an empty query shows all inbounds; otherwise only inbounds whose lower-cased remark or protocol, or port number, contain the lower-cased query |
| InboundPage.MatchingOfAppend | web/src/views/InboundPage.tsx:75-79 | filtering keeps list order |
| InboundPage.MatchingOfMembers | web/src/views/InboundPage.tsx:75-79 | exactly the matching inbounds are kept |
| InboundPage.MatchingOfAll | web/src/views/InboundPage.tsx:75-79 | when all match, the list is unchanged |
| InboundPage.QueryCaseIgnored | web/src/views/InboundPage.tsx:74 | the case of the query does not matter |
| InboundPage.VirtualScrollOnlyForLongLists | web/src/views/InboundPage.tsx:12-115 | the virtual table is used only when more than 50 inbounds exist |

## Left out

- Inbound.ToNumber: reads only integers. That is an optional sign, digits and optional ".0…", with blank text reading as 0. Fractions, exponents, hex and "Infinity" all read as NaN here, unlike JavaScript's `Number()`. Numbers are integers or NaN throughout, so floating-point values are not modelled.
- InboundForm.TrafficText: a stored total that is not a whole number of GiB is shown through the `fractionText` parameter, because JavaScript's decimal rendering of a fraction is not modelled.
- InboundForm.Rehydrated: the expiry date's ISO text is the `isoDate` parameter, and the `Date` parse on submit is the `dateMillis` parameter (`InboundForm.BuildInbound`).
- Text.ToLower: maps only ASCII letters. JavaScript's full Unicode case mapping is not modelled.
- LinkUtils.ShareLinkRoundTrip: requires the credential (uuid or password) to hold no '@'. The link puts the credential before '@' without encoding it, and the parser splits the authority at its first '@', so the round trip is stated only for credentials without '@'. The other fields need no such condition.
- Encoding.UriEncodeChar: characters are Unicode scalar values, so the `URIError` that `encodeURIComponent` throws on a lone UTF-16 surrogate cannot arise.
- SystemService.GetLogs: the fallback answer carries the current time, so only the fact that it is the fallback is modelled. Reading the two log files and running `journalctl` are parameters.
- SystemService.DiskSums: uses unbounded integers. The u64 arithmetic of the source, including a subtraction that would underflow if a disk reported more free space than total space, is not modelled.
- TrafficService.ChargeInbound: the sums `up + uplink` and `down + downlink` are unbounded. i64 overflow of the stored counters is not modelled.
- AddInboundModal.Modal.GenerateRealityKeys: the backend key request is a parameter (its reply). Two requests racing each other are not modelled.
- LegacyModal.Modal.HandleConfirm: the store calls are not awaited in the source. The model runs them to completion before the dialog closes and discards their results; the interleaving is not modelled.
- The form's plain field setters, one per input, are not modelled one by one. Only the setters whose effect reaches a checked property have members.
- Randomness is a parameter everywhere:
  - UUID nibbles;
  - `Math.random()` for the port, as a real in [0, 1);
  - `crypto.getRandomValues` bytes for short ids and the legacy keys;
  - `crypto.randomUUID()` as an optional string.
- `JSON.parse` and `serde_json::from_str` are parameters that return a failure where the library would throw or return an error.
- Process, file, database and network I/O are outside the model:
  - spawning, killing and downloading xray, including `update_xray`'s download and unzip;
  - writing the configuration file, and the background restart after `apply_config`;
  - the SQLite queries and writes (the traffic round returns its writes instead of executing them);
  - localStorage, `window.location` redirects and the axios transport.
- Concurrency is outside the model: the 5-second stats ticker, client polling, `tokio::spawn`, the `Arc<Mutex<…>>` around the system monitor, search debouncing and redirect timers.
- Floating-point system figures are outside the model: CPU, memory, load and uptime. Only the integer disk and network sums are modelled.
- Console and `tracing` logging, byte formatting for display, JSX rendering, the QR-code modal, the dashboard, the tables and the router are outside the model.
- Other parts of the backend are not part of this model: the authentication service (password hashing and JWT), the database layer, the firewall helper, the HTTP handlers and routes, and the reality domain checker. They are library calls or network probes.

## Findings

| source | as written | input that shows it | evidently intended | confidence | as-written member | corrected member |
|---|---|---|---|---|---|---|
| test_parser.rs:48-58 | the name is the text between the first two quotes after the first "name". On a `"name": "X"` line those are the key's closing quote and the value's opening quote, so every entry is stored under ": " | the embedded sample: its three entries with values all land on the key ": ", leaving one entry (": " = 362637) instead of three | the name is X, the text between the value's quotes, giving the three counters 4832, 8903 and 362637 under their own names | not executed | TestParser.SampleAsWritten | TestParser.SampleCorrected |
