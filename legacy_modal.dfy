/**
 * The older, single-file inbound dialog. Its checks and the record it
 * builds are those of the shared form; it differs in what it does around
 * them: reality keys are 32 random bytes each written in base64 on the
 * client, the traffic input takes any text, choosing reality fills in only
 * the short id, and confirm closes the dialog without waiting for the store.
 */
module LegacyModal {
  import opened Wrappers
  import opened Text
  import opened Encoding
  import opened Inbound
  import opened InboundForm
  import Store = InboundStore

  /** `btoa` of 32 random bytes: the form of both reality keys. */
  function RandomKey(bs: seq<byte>): (key: string)
    requires |bs| == 32
    ensures |key| == 44
    ensures Base64Decode(key) == Some(bs)
  {
    Base64RoundTrip(bs);
    Base64Encode(bs)
  }

  /** Text with a letter in it is no number, so the unfiltered traffic input can send a NaN limit. */
  lemma UnfilteredTrafficIsNaN(text: string)
    requires text == "1g"
    ensures TimesGiB(ToNumber(text)).NaN?
  {
    assert TrimJs(text) == text by {
      assert !IsJsWhitespace(text[0]) && !IsJsWhitespace(text[1]);
    }
  }

  class Modal {
    const form: Form
    const store: Store.InboundStore
    var isOpen: bool
    var editing: Option<Inbound>

    constructor(form: Form, store: Store.InboundStore)
      ensures this.form == form && this.store == store && !isOpen && editing.None?
    {
      this.form := form;
      this.store := store;
      isOpen := false;
      editing := None;
    }

    /** `generateRealityKeys`: two independent random keys, never failing. */
    method GenerateRealityKeys(privateBytes: seq<byte>, publicBytes: seq<byte>)
      requires |privateBytes| == 32 && |publicBytes| == 32
      modifies form
      ensures form.values == old(form.values).(
        reality := old(form.values).reality.(privateKey := RandomKey(privateBytes), publicKey := RandomKey(publicBytes)))
      ensures form.values.reality.privateKey != []
    {
      form.SetRealityKeys(RandomKey(privateBytes), RandomKey(publicBytes));
    }

    /** `generateShortIds`: 4 crypto bytes as 8 lower-case hex digits. */
    method GenerateShortIds(bytes: seq<byte>)
      requires |bytes| == 4
      modifies form
      ensures form.values == old(form.values).(reality := old(form.values).reality.(shortIds := ShortId(bytes)))
      ensures LowerHexToBytes(form.values.reality.shortIds) == Some(bytes)
    {
      form.SetRealityShortIds(ShortId(bytes));
    }

    /**
     * Opening: the form loads the edited inbound, or resets for a new one and
     * then gets a fresh key pair, so a new inbound never starts without a
     * private key.
     */
    method Open(node: Option<Inbound>, r: real, uuid: string, isoDate: int -> string, fractionText: int -> string,
                privateBytes: seq<byte>, publicBytes: seq<byte>)
      requires 0.0 <= r < 1.0
      requires |privateBytes| == 32 && |publicBytes| == 32
      modifies this, form
      ensures isOpen && editing == node
      ensures node.Some? ==> form.values == Rehydrated(old(form.values), node.value, uuid, isoDate, fractionText)
      ensures node.None? ==> form.values == ResetValues(old(form.values), RandomPort(r), uuid).(
        reality := DefaultReality.(privateKey := RandomKey(privateBytes), publicKey := RandomKey(publicBytes)))
    {
      isOpen := true;
      editing := node;
      form.OnOpen(true, node, r, uuid, isoDate, fractionText);
      if node.None? {
        GenerateRealityKeys(privateBytes, publicBytes);
      }
    }

    /** The traffic-limit input stores whatever was typed. */
    method OnTotalTrafficInput(text: string)
      modifies form
      ensures form.values == old(form.values).(general := old(form.values).general.(totalTraffic := text))
    {
      form.SetTotalTraffic(text);
    }

    /** Choosing reality fills in a short id when there is none; the keys are left alone. */
    method OnSecurityChange(value: string, bytes: seq<byte>)
      requires |bytes| == 4
      modifies form
      ensures form.values.security == value
      ensures form.values.(security := old(form.values).security, reality := old(form.values).reality) == old(form.values)
      ensures value == "reality" && old(form.values).reality.shortIds == [] ==>
        form.values.reality == old(form.values).reality.(shortIds := ShortId(bytes))
      ensures !(value == "reality" && old(form.values).reality.shortIds == []) ==>
        form.values.reality == old(form.values).reality
    {
      form.SetSecurity(value);
      if value == "reality" && form.values.reality.shortIds == [] {
        GenerateShortIds(bytes);
      }
    }

    /** The un-awaited store call for a checked record. */
    method Send(record: Inbound, answer: Store.Ack, refetch: Store.ListReply, p: Store.Parsers)
      modifies store
      ensures answer.Acked? && answer.success ==> store.inbounds == Store.FetchedList(old(store.inbounds), refetch, p)
    {
      if editing.Some? {
        var _ := store.UpdateInbound(answer, refetch, p);
      } else {
        var _, _ := store.AddInbound(answer, refetch, p);
      }
    }

    /**
     * `handleConfirm`: a failed check alerts and keeps the dialog open;
     * otherwise the record goes to the store and the dialog closes at once,
     * whatever the store later makes of it.
     */
    method HandleConfirm(freshId: string, dateMillis: string -> JsNumber,
                         answer: Store.Ack, refetch: Store.ListReply, p: Store.Parsers)
      returns (built: Result<Inbound, FormError>, alert: Option<string>)
      modifies this, store
      ensures built == BuildInbound(old(form.values), old(editing), freshId, dateMillis)
      ensures editing == old(editing)
      ensures built.Err? ==>
        alert == Some(ErrorKey(built.error)) && isOpen == old(isOpen)
        && store.inbounds == old(store.inbounds) && store.loading == old(store.loading)
      ensures built.Ok? ==> alert.None? && !isOpen
      ensures built.Ok? && answer.Acked? && answer.success ==>
        store.inbounds == Store.FetchedList(old(store.inbounds), refetch, p)
    {
      built := BuildPayload(form.values, editing, freshId, dateMillis);
      alert := Dispatch(built, answer, refetch, p);
    }

    /** Alert on a failed check; otherwise send and close. */
    method Dispatch(built: Result<Inbound, FormError>, answer: Store.Ack, refetch: Store.ListReply, p: Store.Parsers)
      returns (alert: Option<string>)
      modifies this, store
      ensures editing == old(editing)
      ensures built.Err? ==>
        alert == Some(ErrorKey(built.error)) && isOpen == old(isOpen)
        && store.inbounds == old(store.inbounds) && store.loading == old(store.loading)
      ensures built.Ok? ==> alert.None? && !isOpen
      ensures built.Ok? && answer.Acked? && answer.success ==>
        store.inbounds == Store.FetchedList(old(store.inbounds), refetch, p)
    {
      match built {
        case Err(e) =>
          alert := Some(ErrorKey(e));
        case Ok(record) =>
          Send(record, answer, refetch, p);
          isOpen := false;
          alert := None;
      }
    }
  }
}
