/**
 * The inbound dialog built on the shared form: opening it for a new or an
 * edited inbound, the traffic-limit input, the reality key and short-id
 * generators and the security switch that calls them, and the confirm
 * button that checks the form, sends the record through the inbound store
 * and closes only when the store threw nothing. The modal store's open flag
 * and edited inbound are fields here; alerts are returned.
 */
module AddInboundModal {
  import opened Wrappers
  import opened Text
  import opened Encoding
  import opened Inbound
  import opened InboundForm
  import Store = InboundStore

  const KeyGenerationFailed: string := "Failed to generate keys, please try again"

  /** The request the confirm button sends. */
  datatype Request = CreateRequest(record: Inbound) | UpdateRequest(record: Inbound)

  /** What pressing confirm did: a check failed, or a request was sent. */
  datatype ConfirmOutcome =
    | Refused(error: FormError, alert: string)
    | Sent(request: Request, thrown: Option<Store.Thrown>, storeAlert: Option<string>)

  class Modal {
    const form: Form
    const store: Store.InboundStore
    var isOpen: bool
    var editing: Option<Inbound>

    constructor(form: Form, store: Store.InboundStore)
      ensures this.form == form && this.store == store && !isOpen && editing.None?
    {
      this.form := form;
      this.store := store;
      isOpen := false;
      editing := None;
    }

    /** Opening the dialog: the form loads the edited inbound, or resets for a new one. */
    method Open(node: Option<Inbound>, r: real, uuid: string, isoDate: int -> string, fractionText: int -> string)
      requires 0.0 <= r < 1.0
      modifies this, form
      ensures isOpen && editing == node
      ensures node.Some? ==> form.values == Rehydrated(old(form.values), node.value, uuid, isoDate, fractionText)
      ensures node.None? ==> form.values == ResetValues(old(form.values), RandomPort(r), uuid)
    {
      isOpen := true;
      editing := node;
      form.OnOpen(true, node, r, uuid, isoDate, fractionText);
    }

    method Close()
      modifies this
      ensures !isOpen && editing == old(editing)
    {
      isOpen := false;
    }

    /** The traffic-limit input accepts only digits, so the limit never becomes NaN. */
    method OnTotalTrafficInput(text: string)
      modifies form
      ensures AllDigits(text) ==> form.values == old(form.values).(general := old(form.values).general.(totalTraffic := text))
      ensures !AllDigits(text) ==> form.values == old(form.values)
      ensures AllDigits(old(form.values).general.totalTraffic) ==> AllDigits(form.values.general.totalTraffic)
    {
      if AllDigits(text) {
        form.SetTotalTraffic(text);
      }
    }

    /**
     * `generateShortIds`: 4 random bytes, from the crypto source when there
     * is one and else from `Math.random`, written as 8 lower-case hex digits.
     */
    method GenerateShortIds(crypto: Option<seq<byte>>, randoms: seq<real>)
      requires crypto.Some? ==> |crypto.value| == 4
      requires |randoms| == 4 && forall i :: 0 <= i < 4 ==> 0.0 <= randoms[i] < 1.0
      modifies form
      ensures |form.values.reality.shortIds| == 8
      ensures forall i :: 0 <= i < 8 ==> IsLowerHexDigit(form.values.reality.shortIds[i])
      ensures crypto.Some? ==> LowerHexToBytes(form.values.reality.shortIds) == Some(crypto.value)
      ensures form.values == old(form.values).(reality := old(form.values).reality.(shortIds := form.values.reality.shortIds))
    {
      var bytes: seq<byte>;
      if crypto.Some? {
        bytes := crypto.value;
      } else {
        bytes := FallbackBytes(randoms);
      }
      form.SetRealityShortIds(ShortId(bytes));
    }

    /** `generateRealityKeys`: the server's key pair, or an alert and the keys left as they were. */
    method GenerateRealityKeys(keys: Option<(string, string)>) returns (alert: Option<string>)
      modifies form
      ensures keys.Some? ==> alert.None? && form.values == old(form.values).(
        reality := old(form.values).reality.(privateKey := keys.value.0, publicKey := keys.value.1))
      ensures keys.None? ==> alert == Some(KeyGenerationFailed) && form.values == old(form.values)
    {
      match keys {
        case Some((privateKey, publicKey)) =>
          form.SetRealityKeys(privateKey, publicKey);
          alert := None;
        case None =>
          alert := Some(KeyGenerationFailed);
      }
    }

    /** Choosing reality security fills in a short id and a key pair, each only if still empty. */
    method OnSecurityChange(value: string, crypto: Option<seq<byte>>, randoms: seq<real>, keys: Option<(string, string)>)
      returns (alert: Option<string>)
      requires crypto.Some? ==> |crypto.value| == 4
      requires |randoms| == 4 && forall i :: 0 <= i < 4 ==> 0.0 <= randoms[i] < 1.0
      modifies form
      ensures form.values.security == value
      ensures form.values.(security := old(form.values).security, reality := old(form.values).reality) == old(form.values)
      ensures value == "reality" && old(form.values).reality.shortIds == [] ==> |form.values.reality.shortIds| == 8
      ensures !(value == "reality" && old(form.values).reality.shortIds == []) ==>
        form.values.reality.shortIds == old(form.values).reality.shortIds
      ensures value == "reality" && old(form.values).reality.privateKey == [] && keys.Some? ==>
        form.values.reality.privateKey == keys.value.0 && form.values.reality.publicKey == keys.value.1
      ensures !(value == "reality" && old(form.values).reality.privateKey == [] && keys.Some?) ==>
        form.values.reality.privateKey == old(form.values).reality.privateKey
        && form.values.reality.publicKey == old(form.values).reality.publicKey
      ensures alert.Some? <==> value == "reality" && old(form.values).reality.privateKey == [] && keys.None?
    {
      form.SetSecurity(value);
      alert := None;
      if value == "reality" {
        if form.values.reality.shortIds == [] {
          GenerateShortIds(crypto, randoms);
        }
        if form.values.reality.privateKey == [] {
          alert := GenerateRealityKeys(keys);
        }
      }
    }

    /** The store call for a checked record: update when editing, add when not. */
    method Send(record: Inbound, answer: Store.Ack, refetch: Store.ListReply, p: Store.Parsers)
      returns (request: Request, thrown: Option<Store.Thrown>, storeAlert: Option<string>)
      modifies store
      ensures request == (if editing.Some? then UpdateRequest(record) else CreateRequest(record))
      ensures answer.Acked? && answer.success ==> store.inbounds == Store.FetchedList(old(store.inbounds), refetch, p)
      ensures answer.Threw? ==> thrown == Some(answer.error)
    {
      storeAlert := None;
      if editing.Some? {
        thrown := store.UpdateInbound(answer, refetch, p);
        request := UpdateRequest(record);
      } else {
        storeAlert, thrown := store.AddInbound(answer, refetch, p);
        request := CreateRequest(record);
      }
    }

    /**
     * `handleConfirm`: a failed check alerts and sends nothing; otherwise the
     * record goes to `updateInbound` when editing and to `addInbound` when
     * not, and the dialog closes unless the store threw.
     */
    method HandleConfirm(freshId: string, dateMillis: string -> JsNumber,
                         answer: Store.Ack, refetch: Store.ListReply, p: Store.Parsers)
      returns (built: Result<Inbound, FormError>, outcome: ConfirmOutcome)
      modifies this, store
      ensures built == BuildInbound(old(form.values), old(editing), freshId, dateMillis)
      ensures editing == old(editing)
      ensures built.Err? ==>
        outcome == Refused(built.error, ErrorKey(built.error)) && isOpen == old(isOpen)
        && store.inbounds == old(store.inbounds) && store.loading == old(store.loading)
      ensures built.Ok? ==>
        outcome.Sent? && outcome.request == (if old(editing).Some? then UpdateRequest(built.value) else CreateRequest(built.value))
      ensures outcome.Sent? ==> (isOpen <==> old(isOpen) && outcome.thrown.Some?)
      ensures outcome.Sent? && answer.Acked? && answer.success ==>
        store.inbounds == Store.FetchedList(old(store.inbounds), refetch, p)
      ensures outcome.Sent? && answer.Threw? ==> outcome.thrown == Some(answer.error) && isOpen == old(isOpen)
    {
      built := BuildPayload(form.values, editing, freshId, dateMillis);
      outcome := Dispatch(built, answer, refetch, p);
    }

    /** What confirm does with the built result: alert, or send and close unless the store threw. */
    method Dispatch(built: Result<Inbound, FormError>, answer: Store.Ack, refetch: Store.ListReply, p: Store.Parsers)
      returns (outcome: ConfirmOutcome)
      modifies this, store
      ensures editing == old(editing)
      ensures built.Err? ==>
        outcome == Refused(built.error, ErrorKey(built.error)) && isOpen == old(isOpen)
        && store.inbounds == old(store.inbounds) && store.loading == old(store.loading)
      ensures built.Ok? ==>
        outcome.Sent? && outcome.request == (if old(editing).Some? then UpdateRequest(built.value) else CreateRequest(built.value))
      ensures outcome.Sent? ==> (isOpen <==> old(isOpen) && outcome.thrown.Some?)
      ensures outcome.Sent? && answer.Acked? && answer.success ==>
        store.inbounds == Store.FetchedList(old(store.inbounds), refetch, p)
      ensures outcome.Sent? && answer.Threw? ==> outcome.thrown == Some(answer.error) && isOpen == old(isOpen)
    {
      match built {
        case Err(e) =>
          outcome := Refused(e, ErrorKey(e));
        case Ok(record) =>
          var request, thrown, storeAlert := Send(record, answer, refetch, p);
          if thrown.None? {
            isOpen := false;
          }
          outcome := Sent(request, thrown, storeAlert);
      }
    }
  }
}
