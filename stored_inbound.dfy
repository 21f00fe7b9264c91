/**
 * A row of the backend's `inbounds` table, as the services read it. The
 * JSON columns (`settings`, `stream_settings`, `sniffing`, `allocate`) stay
 * text here; the services parse them on use.
 */
module StoredInbound {
  import opened Wrappers

  datatype Row = Row(
    id: string,
    remark: string,
    protocol: string,
    port: int,
    enable: bool,
    tag: Option<string>,
    listen: Option<string>,
    allocate: Option<string>,
    settings: Option<string>,
    streamSettings: Option<string>,
    sniffing: Option<string>,
    up: int,
    down: int,
    total: int,
    expiry: int)

  const DefaultTagPrefix: string := "inbound-"

  /** The tag the services route and count by: the row's own, or one made from its id. */
  function TagOf(row: Row): (t: string)
    ensures row.tag.Some? ==> t == row.tag.value
    ensures row.tag.None? ==> |t| == |DefaultTagPrefix| + |row.id| && t[|DefaultTagPrefix|..] == row.id
  {
    match row.tag
    case Some(t) => t
    case None => DefaultTagPrefix + row.id
  }

  /** Rows without a tag of their own get tags as distinct as their ids. */
  lemma DefaultTagsDistinct(a: Row, b: Row)
    requires a.tag.None? && b.tag.None?
    ensures TagOf(a) == TagOf(b) <==> a.id == b.id
  {
    if TagOf(a) == TagOf(b) {
      assert a.id == TagOf(a)[|DefaultTagPrefix|..];
    }
  }
}
