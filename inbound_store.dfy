/**
 * The web client's inbound list store: fetching the list (decoding the JSON
 * columns the server sends as text), adding, updating, deleting, toggling
 * and resetting inbounds. Each backend reply is a parameter; `JSON.parse` is
 * a parameter that answers `Err(message)` where it would throw.
 */
module InboundStore {
  import opened Wrappers
  import opened Inbound

  /** An error thrown out of a request: the server's `msg`, when it answered, and the error's own message. */
  datatype Thrown = Thrown(responseMsg: Option<string>, message: string)

  /** A request that threw, or the server's `{ success, msg }` answer. */
  datatype Ack =
    | Threw(error: Thrown)
    | Acked(success: bool, msg: Option<string>)

  /** A JSON column as the server sent it: absent, still JSON text, or already an object. */
  datatype RawField<T> = Missing | Encoded(text: string) | Decoded(value: T)

  /** A list entry as received: the record's other fields, and its four JSON columns. */
  datatype RawInbound = RawInbound(
    fields: Inbound,
    settings: RawField<Settings>,
    streamSettings: RawField<StreamSettings>,
    sniffing: RawField<Json>,
    allocate: RawField<Json>)

  /** The list request: a throw, or `{ success, obj }`. */
  datatype ListReply =
    | ListThrew(error: Thrown)
    | Listed(success: bool, obj: Option<seq<RawInbound>>)

  /** `JSON.parse` for each kind of column. */
  datatype Parsers = Parsers(
    settings: string -> Result<Settings, string>,
    streamSettings: string -> Result<StreamSettings, string>,
    json: string -> Result<Json, string>)

  /** `typeof x === 'string' ? JSON.parse(x) : x`. */
  function Decode<T>(field: RawField<T>, parse: string -> Result<T, string>): (r: Result<Option<T>, string>)
    ensures field.Missing? ==> r == Ok(None)
    ensures field.Decoded? ==> r == Ok(Some(field.value))
    ensures field.Encoded? && parse(field.text).Ok? ==> r == Ok(Some(parse(field.text).value))
    ensures field.Encoded? && parse(field.text).Err? ==> r == Err(parse(field.text).error)
  {
    match field
    case Missing => Ok(None)
    case Decoded(v) => Ok(Some(v))
    case Encoded(t) =>
      match parse(t)
      case Ok(v) => Ok(Some(v))
      case Err(e) => Err(e)
  }

  /** One entry with its columns decoded in order; the first column that fails to parse throws. */
  function ProcessItem(raw: RawInbound, p: Parsers): (r: Result<Inbound, string>)
    ensures r.Ok? ==> r.value == raw.fields.(settings := r.value.settings, streamSettings := r.value.streamSettings,
                                             sniffing := r.value.sniffing, allocate := r.value.allocate)
    ensures r.Err? <==> Decode(raw.settings, p.settings).Err? || Decode(raw.streamSettings, p.streamSettings).Err?
                        || Decode(raw.sniffing, p.json).Err? || Decode(raw.allocate, p.json).Err?
  {
    match Decode(raw.settings, p.settings)
    case Err(e) => Err(e)
    case Ok(settings) =>
      match Decode(raw.streamSettings, p.streamSettings)
      case Err(e) => Err(e)
      case Ok(streamSettings) =>
        match Decode(raw.sniffing, p.json)
        case Err(e) => Err(e)
        case Ok(sniffing) =>
          match Decode(raw.allocate, p.json)
          case Err(e) => Err(e)
          case Ok(allocate) =>
            Ok(raw.fields.(settings := settings, streamSettings := streamSettings,
                           sniffing := sniffing, allocate := allocate))
  }

  /** An entry whose columns already arrived as objects is kept as it came. */
  lemma DecodedItemKept(raw: RawInbound, p: Parsers)
    requires raw.settings.Decoded? && raw.streamSettings.Decoded? && raw.sniffing.Decoded? && raw.allocate.Decoded?
    ensures ProcessItem(raw, p) == Ok(raw.fields.(
      settings := Some(raw.settings.value), streamSettings := Some(raw.streamSettings.value),
      sniffing := Some(raw.sniffing.value), allocate := Some(raw.allocate.value)))
  {
  }

  /** Columns sent as text that parse give the same entry as the parsed objects would. */
  lemma EncodedLikeDecoded(fields: Inbound, s: string, st: string, sn: string, al: string, p: Parsers)
    requires p.settings(s).Ok? && p.streamSettings(st).Ok? && p.json(sn).Ok? && p.json(al).Ok?
    ensures ProcessItem(RawInbound(fields, Encoded(s), Encoded(st), Encoded(sn), Encoded(al)), p)
      == ProcessItem(RawInbound(fields, Decoded(p.settings(s).value), Decoded(p.streamSettings(st).value),
                                Decoded(p.json(sn).value), Decoded(p.json(al).value)), p)
  {
  }

  /** The list `.map`: every entry processed in order; the first failure throws. */
  function ProcessAll(raws: seq<RawInbound>, p: Parsers): (r: Result<seq<Inbound>, string>)
    ensures r.Ok? ==> |r.value| == |raws| && forall i :: 0 <= i < |raws| ==> ProcessItem(raws[i], p) == Ok(r.value[i])
    ensures r.Err? ==> exists i :: (0 <= i < |raws| && ProcessItem(raws[i], p) == Err(r.error)
                                    && forall j :: 0 <= j < i ==> ProcessItem(raws[j], p).Ok?)
    decreases |raws|
  {
    if raws == [] then Ok([])
    else
      match ProcessItem(raws[0], p)
      case Err(e) => Err(e)
      case Ok(item) =>
        match ProcessAll(raws[1..], p)
        case Err(e) =>
          var i :| 0 <= i < |raws[1..]| && ProcessItem(raws[1..][i], p) == Err(e)
            && forall j :: 0 <= j < i ==> ProcessItem(raws[1..][j], p).Ok?;
          assert ProcessItem(raws[i + 1], p) == Err(e);
          assert forall j :: 0 <= j < i + 1 ==> ProcessItem(raws[j], p).Ok? by {
            forall j | 0 <= j < i + 1 ensures ProcessItem(raws[j], p).Ok? {
              if j > 0 {
                assert raws[j] == raws[1..][j - 1];
              }
            }
          }
          Err(e)
        case Ok(rest) =>
          var r := [item] + rest;
          assert forall i :: 1 <= i < |raws| ==> raws[i] == raws[1..][i - 1] && r[i] == rest[i - 1];
          Ok(r)
  }

  /** The list after a fetch: replaced on a successful answer that decodes, otherwise as it was. */
  function FetchedList(current: seq<Inbound>, reply: ListReply, p: Parsers): (r: seq<Inbound>)
    ensures !(reply.Listed? && reply.success) ==> r == current
    ensures reply.Listed? && reply.success && reply.obj.GetOr([]) == [] ==> r == []
    ensures reply.Listed? && reply.success && ProcessAll(reply.obj.GetOr([]), p).Ok? ==>
      r == ProcessAll(reply.obj.GetOr([]), p).value
    ensures reply.Listed? && reply.success && ProcessAll(reply.obj.GetOr([]), p).Ok? ==>
      var raws := reply.obj.GetOr([]);
      |r| == |raws| && forall i :: 0 <= i < |raws| ==> ProcessItem(raws[i], p) == Ok(r[i])
    ensures reply.Listed? && reply.success && ProcessAll(reply.obj.GetOr([]), p).Err? ==> r == current
  {
    match reply
    case ListThrew(_) => current
    case Listed(success, obj) =>
      if !success then current
      else
        match ProcessAll(obj.GetOr([]), p)
        case Ok(list) => list
        case Err(_) => current
  }

  /** What a fetch throws: the request's own error, or the first column that failed to parse. */
  function FetchError(reply: ListReply, p: Parsers): (r: Option<Thrown>)
    ensures reply.ListThrew? ==> r == Some(reply.error)
    ensures reply.Listed? && !reply.success ==> r.None?
    ensures r.Some? && reply.Listed? ==> r.value.responseMsg.None?
  {
    match reply
    case ListThrew(e) => Some(e)
    case Listed(success, obj) =>
      if !success then None
      else
        match ProcessAll(obj.GetOr([]), p)
        case Ok(_) => None
        case Err(msg) => Some(Thrown(None, msg))
  }

  /** A fetch that throws leaves the list as it was. */
  lemma FailedFetchKeepsList(current: seq<Inbound>, reply: ListReply, p: Parsers)
    requires FetchError(reply, p).Some?
    ensures FetchedList(current, reply, p) == current
  {
  }

  /** Otherwise a successful answer's list replaces the old one whatever it held. */
  lemma FetchReplacesList(a: seq<Inbound>, b: seq<Inbound>, reply: ListReply, p: Parsers)
    requires reply.Listed? && reply.success && FetchError(reply, p).None?
    ensures FetchedList(a, reply, p) == FetchedList(b, reply, p)
  {
  }

  /** `error.response?.data?.msg || error.message || 'Unknown error'`. */
  function AlertText(e: Thrown): (text: string)
    ensures text != []
    ensures e.responseMsg.Some? && e.responseMsg.value != [] ==> text == e.responseMsg.value
  {
    StringOr(e.responseMsg, StringOr(Some(e.message), "Unknown error"))
  }

  const AddFailed: string := "Failed to add inbound"

  /** `.filter(item => item.id !== id)`. */
  function WithoutId(xs: seq<Inbound>, id: string): (r: seq<Inbound>)
    ensures |r| <= |xs|
    ensures forall i :: 0 <= i < |r| ==> r[i].id != id
    ensures (forall i :: 0 <= i < |xs| ==> xs[i].id != id) ==> r == xs
    decreases |xs|
  {
    if xs == [] then []
    else
      var rest := WithoutId(xs[..|xs| - 1], id);
      var last := xs[|xs| - 1];
      if last.id != id then rest + [last] else rest
  }

  /** Deletion works piece by piece: the survivors keep their order. */
  lemma {:induction false} WithoutIdAppend(a: seq<Inbound>, b: seq<Inbound>, id: string)
    ensures WithoutId(a + b, id) == WithoutId(a, id) + WithoutId(b, id)
    decreases |b|
  {
    if b == [] {
      assert a + b == a;
    } else {
      var b' := b[..|b| - 1];
      assert (a + b)[..|a + b| - 1] == a + b';
      WithoutIdAppend(a, b', id);
    }
  }

  /** Exactly the entries with other ids survive. */
  lemma {:induction false} WithoutIdMembers(xs: seq<Inbound>, id: string, x: Inbound)
    ensures x in WithoutId(xs, id) <==> x in xs && x.id != id
    decreases |xs|
  {
    if xs != [] {
      var init := xs[..|xs| - 1];
      WithoutIdMembers(init, id, x);
      assert xs == init + [xs[|xs| - 1]];
    }
  }

  /** `.find(i => i.id === id)`: the first entry with that id. */
  function FindById(xs: seq<Inbound>, id: string): (r: Option<nat>)
    ensures r.Some? ==> r.value < |xs| && xs[r.value].id == id
    ensures r.Some? ==> forall j :: 0 <= j < r.value ==> xs[j].id != id
    ensures r.None? <==> forall j :: 0 <= j < |xs| ==> xs[j].id != id
    decreases |xs|
  {
    if xs == [] then None
    else if xs[0].id == id then Some(0)
    else match FindById(xs[1..], id)
      case None => None
      case Some(i) => Some(i + 1)
  }

  /** `.map(item => item.id === id ? { ...item, enable: !item.enable } : item)`. */
  function FlipEnable(xs: seq<Inbound>, id: string): (r: seq<Inbound>)
    ensures |r| == |xs|
    ensures forall i :: 0 <= i < |xs| && xs[i].id == id ==> r[i] == xs[i].(enable := !xs[i].enable)
    ensures forall i :: 0 <= i < |xs| && xs[i].id != id ==> r[i] == xs[i]
  {
    seq(|xs|, i requires 0 <= i < |xs| => if xs[i].id == id then xs[i].(enable := !xs[i].enable) else xs[i])
  }

  /** Toggling twice gives the list back. */
  lemma FlipEnableTwice(xs: seq<Inbound>, id: string)
    ensures FlipEnable(FlipEnable(xs, id), id) == xs
  {
    var once := FlipEnable(xs, id);
    assert forall i :: 0 <= i < |xs| ==> once[i].id == xs[i].id;
  }

  /** `.map(item => item.id === id ? { ...item, up: 0, down: 0 } : item)`. */
  function ZeroTraffic(xs: seq<Inbound>, id: string): (r: seq<Inbound>)
    ensures |r| == |xs|
    ensures forall i :: 0 <= i < |xs| && xs[i].id == id ==> r[i] == xs[i].(up := Some(0), down := Some(0))
    ensures forall i :: 0 <= i < |xs| && xs[i].id != id ==> r[i] == xs[i]
  {
    seq(|xs|, i requires 0 <= i < |xs| => if xs[i].id == id then xs[i].(up := Some(0), down := Some(0)) else xs[i])
  }

  /** Resetting the same inbound again changes nothing. */
  lemma ZeroTrafficIdempotent(xs: seq<Inbound>, id: string)
    ensures ZeroTraffic(ZeroTraffic(xs, id), id) == ZeroTraffic(xs, id)
  {
    var once := ZeroTraffic(xs, id);
    assert forall i :: 0 <= i < |xs| ==> once[i].id == xs[i].id;
  }

  /** What `toggleEnable` did. */
  datatype ToggleOutcome =
    | UnknownInbound
    | Requested(enable: bool, thrown: Option<Thrown>)

  class InboundStore {
    var inbounds: seq<Inbound>
    var loading: bool

    constructor()
      ensures inbounds == [] && !loading
    {
      inbounds := [];
      loading := false;
    }

    /** `fetchInbounds`: the list per `FetchedList`, whatever is thrown passed on, loading always ended. */
    method FetchInbounds(reply: ListReply, p: Parsers) returns (thrown: Option<Thrown>)
      modifies this
      ensures inbounds == FetchedList(old(inbounds), reply, p)
      ensures thrown == FetchError(reply, p)
      ensures !loading
    {
      loading := true;
      thrown := None;
      match reply {
        case ListThrew(e) =>
          thrown := Some(e);
        case Listed(success, obj) =>
          if success {
            var processed := ProcessAll(obj.GetOr([]), p);
            if processed.Err? {
              thrown := Some(Thrown(None, processed.error));
            } else {
              inbounds := processed.value;
            }
          }
      }
      loading := false;
    }

    /**
     * `addInbound`: a successful answer refetches; a refused one throws its
     * message (or a default), and anything thrown is shown and passed on.
     */
    method AddInbound(created: Ack, refetch: ListReply, p: Parsers) returns (alert: Option<string>, thrown: Option<Thrown>)
      modifies this
      ensures created.Acked? && created.success ==>
        inbounds == FetchedList(old(inbounds), refetch, p) && thrown == FetchError(refetch, p) && !loading
      ensures !(created.Acked? && created.success) ==> inbounds == old(inbounds) && loading == old(loading)
      ensures created.Threw? ==> thrown == Some(created.error)
      ensures created.Acked? && !created.success ==> thrown == Some(Thrown(None, StringOr(created.msg, AddFailed)))
      ensures thrown.None? <==> alert.None?
      ensures thrown.Some? ==> alert == Some(AlertText(thrown.value))
    {
      match created {
        case Threw(e) =>
          thrown := Some(e);
        case Acked(success, msg) =>
          if success {
            thrown := FetchInbounds(refetch, p);
          } else {
            thrown := Some(Thrown(None, StringOr(msg, AddFailed)));
          }
      }
      if thrown.Some? {
        alert := Some(AlertText(thrown.value));
      } else {
        alert := None;
      }
    }

    /** The alert for a refused add is the server's message, or the default one. */
    static lemma RefusedAddAlert(msg: Option<string>)
      ensures AlertText(Thrown(None, StringOr(msg, AddFailed))) == StringOr(msg, AddFailed)
    {
    }

    /** `updateInbound`: refetch only after a successful answer; a throw is passed on. */
    method UpdateInbound(updated: Ack, refetch: ListReply, p: Parsers) returns (thrown: Option<Thrown>)
      modifies this
      ensures updated.Acked? && updated.success ==>
        inbounds == FetchedList(old(inbounds), refetch, p) && thrown == FetchError(refetch, p) && !loading
      ensures !(updated.Acked? && updated.success) ==> inbounds == old(inbounds) && loading == old(loading)
      ensures updated.Threw? ==> thrown == Some(updated.error)
      ensures updated.Acked? && !updated.success ==> thrown.None?
    {
      thrown := None;
      match updated {
        case Threw(e) =>
          thrown := Some(e);
        case Acked(success, _) =>
          if success {
            thrown := FetchInbounds(refetch, p);
          }
      }
    }

    /** `deleteInbound`: after a successful answer every entry with the id is gone. */
    method DeleteInbound(id: string, deleted: Ack) returns (thrown: Option<Thrown>)
      modifies this
      ensures deleted.Acked? && deleted.success ==> inbounds == WithoutId(old(inbounds), id)
      ensures !(deleted.Acked? && deleted.success) ==> inbounds == old(inbounds)
      ensures thrown == (if deleted.Threw? then Some(deleted.error) else None)
      ensures loading == old(loading)
    {
      thrown := None;
      match deleted {
        case Threw(e) =>
          thrown := Some(e);
        case Acked(success, _) =>
          if success {
            inbounds := WithoutId(inbounds, id);
          }
      }
    }

    /** `toggleEnable`: no request for an unknown id; else the opposite of the first match's state is asked for. */
    method ToggleEnable(id: string, toggled: Ack) returns (outcome: ToggleOutcome)
      modifies this
      ensures FindById(old(inbounds), id).None? <==> outcome.UnknownInbound?
      ensures outcome.Requested? ==> outcome.enable == !old(inbounds)[FindById(old(inbounds), id).value].enable
      ensures outcome.Requested? && toggled.Acked? && toggled.success ==> inbounds == FlipEnable(old(inbounds), id)
      ensures !(outcome.Requested? && toggled.Acked? && toggled.success) ==> inbounds == old(inbounds)
      ensures outcome.Requested? ==> outcome.thrown == (if toggled.Threw? then Some(toggled.error) else None)
      ensures loading == old(loading)
    {
      var found := FindById(inbounds, id);
      if found.None? {
        return UnknownInbound;
      }
      var enable := !inbounds[found.value].enable;
      match toggled {
        case Threw(e) =>
          outcome := Requested(enable, Some(e));
        case Acked(success, _) =>
          if success {
            inbounds := FlipEnable(inbounds, id);
          }
          outcome := Requested(enable, None);
      }
    }

    /** `resetTraffic`: local only; matching entries show zero traffic. */
    method ResetTraffic(id: string)
      modifies this
      ensures inbounds == ZeroTraffic(old(inbounds), id)
      ensures loading == old(loading)
    {
      inbounds := ZeroTraffic(inbounds, id);
    }

    method SetInbounds(data: seq<Inbound>)
      modifies this
      ensures inbounds == data && loading == old(loading)
    {
      inbounds := data;
    }
  }

  /** A successful toggle makes the entry the request named carry the state the request asked for. */
  lemma ToggleReachesRequested(xs: seq<Inbound>, id: string)
    requires FindById(xs, id).Some?
    ensures FlipEnable(xs, id)[FindById(xs, id).value].enable == !xs[FindById(xs, id).value].enable
  {
  }
}
