/** The two-channel notification dispatcher (lib/messaging/provider.ts). A
    provider is modelled by what each of its three template calls does (resolve
    with an id and optional cost, or throw); the recording callback by the list
    of records it is called with and, per call site, whether it throws. */
module Messaging {
  import opened Common
  import opened Types

  /** The three operations of the `MessageProvider` interface. */
  datatype ProviderMethod = SendTemplateJoinConfirm | SendTemplateReminder | SendTemplateTableReady

  /** `methodMap`: template name to provider operation, the one that sends
      that very template. */
  function MethodFor(t: Template): (m: ProviderMethod)
    ensures TemplateOf(m) == t
  {
    match t
    case JoinConfirm => SendTemplateJoinConfirm
    case Reminder => SendTemplateReminder
    case TableReady => SendTemplateTableReady
  }

  /** The template an operation sends. */
  function TemplateOf(m: ProviderMethod): Template
  {
    match m
    case SendTemplateJoinConfirm => JoinConfirm
    case SendTemplateReminder => Reminder
    case SendTemplateTableReady => TableReady
  }

  /** The method map is a bijection: each template has its own operation. */
  lemma MethodMapIsBijective(t: Template, m: ProviderMethod)
    ensures TemplateOf(MethodFor(t)) == t
    ensures MethodFor(TemplateOf(m)) == m
    ensures MethodFor(t) == m <==> t == TemplateOf(m)
  {
  }

  /** What a provider call does: resolve with `{ id, cost? }`, or throw. */
  datatype SendOutcome = Delivered(id: string, cost: Option<int>) | Threw

  /** A channel provider, as the outcome of each of its three operations. */
  datatype Provider = Provider(joinConfirm: SendOutcome, reminder: SendOutcome, tableReady: SendOutcome)

  function Call(p: Provider, m: ProviderMethod): SendOutcome
  {
    match m
    case SendTemplateJoinConfirm => p.joinConfirm
    case SendTemplateReminder => p.reminder
    case SendTemplateTableReady => p.tableReady
  }

  /** The argument bag handed unchanged to the provider operation. */
  datatype DispatchArgs = DispatchArgs(
    partyId: string,
    to: string,
    name: string,
    link: string,
    restaurantName: string,
    etaMinutes: Option<int>)

  /** One outgoing provider call. */
  datatype ProviderCall = ProviderCall(channel: Channel, operation: ProviderMethod, args: DispatchArgs)

  /** Whether the recording callback throws at each of its three call sites:
      after a WhatsApp success, after an SMS success, after both failed. */
  datatype RecordFaults = RecordFaults(onWhatsApp: bool, onSms: bool, onFailure: bool)

  const NoFaults := RecordFaults(false, false, false)

  datatype DispatchError = AllChannelsFailed | RecordThrew

  datatype DispatchResult =
    | Dispatched(channel: Channel, providerId: string, cost: Option<int>)
    | DispatchFailed(error: DispatchError)

  /** The records and outcome of the part of a call after its WhatsApp step. */
  datatype Tail = Tail(records: seq<NotificationRecord>, result: DispatchResult)

  /** Everything one `sendWithFallback` call does. */
  datatype Trace = Trace(calls: seq<ProviderCall>, records: seq<NotificationRecord>, result: DispatchResult)

  function SentRecord(args: DispatchArgs, c: Channel, t: Template, id: string, cost: Option<int>): NotificationRecord
  {
    NotificationRecord(args.partyId, c, t, Sent, cost, Some(id))
  }

  function FailedRecord(args: DispatchArgs, t: Template): NotificationRecord
  {
    NotificationRecord(args.partyId, WhatsApp, t, Failed, None, None)
  }

  /** The innermost `catch (smsError)` block: record one failed WhatsApp
      attempt, then throw (the recording's own error, if it throws). */
  function BothFailed(args: DispatchArgs, t: Template, f: RecordFaults): Tail
  {
    Tail([FailedRecord(args, t)], DispatchFailed(if f.onFailure then RecordThrew else AllChannelsFailed))
  }

  /** The `catch (waError)` block: try SMS, record its success, and fall into
      the failure block when either step throws. */
  function SmsFallback(sms: Provider, t: Template, args: DispatchArgs, f: RecordFaults): Tail
  {
    match Call(sms, MethodFor(t))
    case Delivered(id, cost) =>
      if !f.onSms then Tail([SentRecord(args, Sms, t, id, cost)], Dispatched(Sms, id, cost))
      else
        var rest := BothFailed(args, t, f);
        Tail([SentRecord(args, Sms, t, id, cost)] + rest.records, rest.result)
    case Threw => BothFailed(args, t, f)
  }

  /** The specification of `sendWithFallback`: WhatsApp first; on any throw
      inside the first `try` (the provider call or recording its success), SMS. */
  function Dispatch(wa: Provider, sms: Provider, t: Template, args: DispatchArgs, f: RecordFaults): (tr: Trace)
    ensures 1 <= |tr.calls| <= 2 && tr.calls[0] == ProviderCall(WhatsApp, MethodFor(t), args)
    ensures |tr.calls| == 2 ==> tr.calls[1] == ProviderCall(Sms, MethodFor(t), args)
    ensures |tr.calls| == 1 <==> Call(wa, MethodFor(t)).Delivered? && !f.onWhatsApp
  {
    var m := MethodFor(t);
    var waCall := ProviderCall(WhatsApp, m, args);
    var smsCall := ProviderCall(Sms, m, args);
    match Call(wa, m)
    case Delivered(id, cost) =>
      if !f.onWhatsApp then Trace([waCall], [SentRecord(args, WhatsApp, t, id, cost)], Dispatched(WhatsApp, id, cost))
      else
        var rest := SmsFallback(sms, t, args, f);
        Trace([waCall, smsCall], [SentRecord(args, WhatsApp, t, id, cost)] + rest.records, rest.result)
    case Threw =>
      var rest := SmsFallback(sms, t, args, f);
      Trace([waCall, smsCall], rest.records, rest.result)
  }

  /** WhatsApp succeeds and is recorded: SMS is never attempted, one sent
      WhatsApp record carries the provider's id and cost, and the call reports
      the WhatsApp channel. */
  lemma WhatsAppSuccess(wa: Provider, sms: Provider, t: Template, args: DispatchArgs, f: RecordFaults)
    requires Call(wa, MethodFor(t)).Delivered? && !f.onWhatsApp
    ensures var tr, o := Dispatch(wa, sms, t, args, f), Call(wa, MethodFor(t));
      && tr.calls == [ProviderCall(WhatsApp, MethodFor(t), args)]
      && tr.records == [NotificationRecord(args.partyId, WhatsApp, t, Sent, o.cost, Some(o.id))]
      && tr.result == Dispatched(WhatsApp, o.id, o.cost)
  {
  }

  /** WhatsApp throws and SMS succeeds: one sent SMS record, SMS reported. */
  lemma SmsFallbackSuccess(wa: Provider, sms: Provider, t: Template, args: DispatchArgs, f: RecordFaults)
    requires Call(wa, MethodFor(t)).Threw? && Call(sms, MethodFor(t)).Delivered? && !f.onSms
    ensures var tr, o := Dispatch(wa, sms, t, args, f), Call(sms, MethodFor(t));
      && tr.calls == [ProviderCall(WhatsApp, MethodFor(t), args), ProviderCall(Sms, MethodFor(t), args)]
      && tr.records == [NotificationRecord(args.partyId, Sms, t, Sent, o.cost, Some(o.id))]
      && tr.result == Dispatched(Sms, o.id, o.cost)
  {
  }

  /** Both channels throw: one failed record attributed to WhatsApp, with no
      cost and no provider id, and the call fails. */
  lemma BothChannelsFail(wa: Provider, sms: Provider, t: Template, args: DispatchArgs, f: RecordFaults)
    requires Call(wa, MethodFor(t)).Threw? && Call(sms, MethodFor(t)).Threw?
    ensures var tr := Dispatch(wa, sms, t, args, f);
      && tr.records == [NotificationRecord(args.partyId, WhatsApp, t, Failed, None, None)]
      && tr.result.DispatchFailed?
      && (!f.onFailure ==> tr.result.error == AllChannelsFailed)
  {
  }

  /** Whatever happens, every record names the party and the template asked
      for, and one to three records are made. */
  lemma RecordsCarryPartyAndTemplate(wa: Provider, sms: Provider, t: Template, args: DispatchArgs, f: RecordFaults)
    ensures var tr := Dispatch(wa, sms, t, args, f);
      && 1 <= |tr.records| <= 3
      && (forall r :: r in tr.records ==> r.partyId == args.partyId && r.template == t)
  {
  }

  /** With a recorder that never throws, every call makes exactly one record,
      and it agrees with the reported outcome. */
  lemma ExactlyOneRecord(wa: Provider, sms: Provider, t: Template, args: DispatchArgs)
    ensures var tr := Dispatch(wa, sms, t, args, NoFaults);
      && |tr.records| == 1
      && (tr.result.Dispatched? <==> tr.records[0].status == Sent)
      && (tr.result.Dispatched? ==>
            tr.records[0].channel == tr.result.channel
            && tr.records[0].providerId == Some(tr.result.providerId)
            && tr.records[0].cost == tr.result.cost)
      && (tr.result.DispatchFailed? ==> tr.result.error == AllChannelsFailed)
  {
  }

  /** Where "exactly one record" breaks: WhatsApp delivers, recording that
      throws, so SMS is sent as well and a second record is made. Both
      channels have then delivered the message. */
  lemma RecordingFailureDuplicates(wa: Provider, sms: Provider, t: Template, args: DispatchArgs)
    requires Call(wa, MethodFor(t)).Delivered? && Call(sms, MethodFor(t)).Delivered?
    ensures var tr := Dispatch(wa, sms, t, args, RecordFaults(true, false, false));
      && |tr.records| == 2
      && tr.records[0].channel == WhatsApp && tr.records[1].channel == Sms
      && |tr.calls| == 2
      && tr.result.Dispatched? && tr.result.channel == Sms
  {
  }

  /** The dispatcher's effects: the provider calls it has made and the records
      it has passed to the recording callback. */
  class Dispatcher {
    var calls: seq<ProviderCall>
    var records: seq<NotificationRecord>

    constructor ()
      ensures calls == [] && records == []
    {
      calls := [];
      records := [];
    }

    method Record(r: NotificationRecord, throws: bool) returns (ok: bool)
      modifies this
      ensures calls == old(calls) && records == old(records) + [r] && ok == !throws
    {
      records := records + [r];
      ok := !throws;
    }

    method Send(p: Provider, c: Channel, m: ProviderMethod, args: DispatchArgs) returns (o: SendOutcome)
      modifies this
      ensures o == Call(p, m)
      ensures calls == old(calls) + [ProviderCall(c, m, args)] && records == old(records)
    {
      calls := calls + [ProviderCall(c, m, args)];
      o := Call(p, m);
    }

    /** The `catch (waError)` block: the SMS attempt and the failure block,
        as `SmsFallback` specifies. */
    method FallBackToSms(sms: Provider, t: Template, args: DispatchArgs, f: RecordFaults)
      returns (result: DispatchResult)
      modifies this
      ensures var tail := SmsFallback(sms, t, args, f);
        && result == tail.result
        && calls == old(calls) + [ProviderCall(Sms, MethodFor(t), args)]
        && records == old(records) + tail.records
    {
      var smsResult := Send(sms, Sms, MethodFor(t), args);
      if smsResult.Delivered? {
        var ok := Record(SentRecord(args, Sms, t, smsResult.id, smsResult.cost), f.onSms);
        if ok {
          return Dispatched(Sms, smsResult.id, smsResult.cost);
        }
      }
      var ok := Record(FailedRecord(args, t), f.onFailure);
      result := DispatchFailed(if ok then AllChannelsFailed else RecordThrew);
    }

    /** `sendWithFallback`: as `Dispatch` specifies, appending the calls and
        records to this dispatcher's history. */
    method SendWithFallback(wa: Provider, sms: Provider, t: Template, args: DispatchArgs, f: RecordFaults)
      returns (result: DispatchResult)
      modifies this
      ensures var tr := Dispatch(wa, sms, t, args, f);
        && result == tr.result
        && calls == old(calls) + tr.calls
        && records == old(records) + tr.records
    {
      var m := MethodFor(t);
      var waResult := Send(wa, WhatsApp, m, args);
      if waResult.Delivered? {
        var ok := Record(SentRecord(args, WhatsApp, t, waResult.id, waResult.cost), f.onWhatsApp);
        if ok {
          return Dispatched(WhatsApp, waResult.id, waResult.cost);
        }
      }
      result := FallBackToSms(sms, t, args, f);
    }
  }
}
