/** Adding a party to the waitlist (app/api/party/route.ts): the request
    schema, the handler's early returns, the inserted row, the status token
    and link, and the join confirmation sent without waiting on its outcome.
    The phone library, the access check, the store's answers, the random
    bytes, the clock and the two channel providers are parameters. */
module Join {
  import opened Common
  import opened Types
  import opened Phone
  import opened Messaging

  newtype byte = x: int | 0 <= x < 256

  /** A JSON number is an integer when it has no fractional part. */
  predicate IsInteger(x: real)
  {
    x.Floor as real == x
  }

  /** `z.string().min(1).max(100)` on the party's name. */
  predicate ValidName(name: string)
  {
    1 <= |name| <= 100
  }

  /** `z.number().int().min(1).max(12)` on the party size. */
  predicate ValidSize(x: real)
  {
    IsInteger(x) && 1.0 <= x <= 12.0
  }

  /** `z.number().int().min(5).max(120)` on the estimated wait. */
  predicate ValidEta(x: real)
  {
    IsInteger(x) && 5.0 <= x <= 120.0
  }

  predicate IsHexChar(c: char)
  {
    ('0' <= c <= '9') || ('a' <= c <= 'f') || ('A' <= c <= 'F')
  }

  /** `z.string().uuid()`: five groups of 8, 4, 4, 4 and 12 hexadecimal
      digits, either case, joined by hyphens. */
  predicate IsUuid(s: string)
  {
    |s| == 36
    && forall i :: 0 <= i < 36 ==>
         if i == 8 || i == 13 || i == 18 || i == 23 then s[i] == '-' else IsHexChar(s[i])
  }

  /** The request body, with its numbers as JSON numbers. */
  datatype CreatePartyBody = CreatePartyBody(
    restaurantId: string,
    name: string,
    phone: string,
    size: real,
    etaMinutes: real,
    notes: Option<string>)

  /** `createPartySchema.parse(body)` succeeds. */
  predicate ValidBody(b: CreatePartyBody)
  {
    IsUuid(b.restaurantId) && ValidName(b.name) && |b.phone| >= 1 && ValidSize(b.size) && ValidEta(b.etaMinutes)
  }

  /** An accepted body carries integers in range: the size is one of 1..12
      and the estimate one of 5..120 minutes, and each such integer is
      accepted. */
  lemma AcceptedBounds(x: real)
    ensures ValidSize(x) <==> exists n: int :: 1 <= n <= 12 && x == Real(n)
    ensures ValidEta(x) <==> exists n: int :: 5 <= n <= 120 && x == Real(n)
  {
    if ValidSize(x) || ValidEta(x) {
      assert x == Real(x.Floor);
    }
  }

  /** The JSON number of an integer. */
  function Real(n: int): real
  {
    n as real
  }

  /** The digit for a nibble: a lowercase hexadecimal character. */
  function HexDigit(n: int): (c: char)
    requires 0 <= n < 16
    ensures IsLowerHex(c)
  {
    if n < 10 then ('0' as int + n) as char else ('a' as int + n - 10) as char
  }

  predicate IsLowerHex(c: char)
  {
    ('0' <= c <= '9') || ('a' <= c <= 'f')
  }

  function HexValue(c: char): (n: int)
    requires IsLowerHex(c)
    ensures 0 <= n < 16 && HexDigit(n) == c
  {
    if c <= '9' then c as int - '0' as int else c as int - 'a' as int + 10
  }

  /** `Buffer.toString('hex')`: two lowercase digits per byte, high nibble
      first. */
  function HexEncode(bs: seq<byte>): (s: string)
    ensures |s| == 2 * |bs|
    ensures forall i :: 0 <= i < |s| ==> IsLowerHex(s[i])
  {
    if bs == [] then []
    else [HexDigit(bs[0] as int / 16), HexDigit(bs[0] as int % 16)] + HexEncode(bs[1..])
  }

  /** Reading a lowercase hexadecimal string back into bytes. */
  function HexDecode(s: string): seq<byte>
    requires |s| % 2 == 0
    requires forall i :: 0 <= i < |s| ==> IsLowerHex(s[i])
  {
    if s == [] then []
    else [(HexValue(s[0]) * 16 + HexValue(s[1])) as byte] + HexDecode(s[2..])
  }

  /** The hex encoding loses nothing: decoding it gives back the bytes. */
  lemma {:induction false} HexRoundTrip(bs: seq<byte>)
    ensures HexDecode(HexEncode(bs)) == bs
  {
    if bs != [] {
      var b := bs[0] as int;
      var s := HexEncode(bs);
      assert s[2..] == HexEncode(bs[1..]);
      assert HexValue(s[0]) == b / 16 && HexValue(s[1]) == b % 16 by {
        assert HexDigit(HexValue(s[0])) == s[0] == HexDigit(b / 16);
        assert HexDigit(HexValue(s[1])) == s[1] == HexDigit(b % 16);
        HexDigitInjective(HexValue(s[0]), b / 16);
        HexDigitInjective(HexValue(s[1]), b % 16);
      }
      HexRoundTrip(bs[1..]);
    }
  }

  lemma HexDigitInjective(m: int, n: int)
    requires 0 <= m < 16 && 0 <= n < 16
    requires HexDigit(m) == HexDigit(n)
    ensures m == n
  {
  }

  /** `${NEXT_PUBLIC_APP_URL}/status/${token}`. */
  function StatusLink(appUrl: string, token: string): string
  {
    appUrl + "/status/" + token
  }

  /** `restaurant?.name || 'Restaurante'`: a missing or empty name falls back. */
  function RestaurantDisplayName(name: Option<string>): (d: string)
    ensures |d| > 0
    ensures name.Some? && name.value != "" ==> d == name.value
  {
    if name.Some? && name.value != "" then name.value else "Restaurante"
  }

  /** What the handler cannot compute itself:
      - whether `requireRestaurantAccess` lets the request through;
      - the phone library's E.164 result (`None` when it throws);
      - the ids of the restaurant's waitlists whose status is `open`;
      - the 32 random token bytes;
      - whether the insert succeeds, and the id and timestamp the store gives
        the new row;
      - the restaurant's name, if the lookup found one;
      - the application URL;
      - whether the SMS provider is configured (its constructor throws
        without credentials), and what each channel's operations do. */
  datatype JoinEnv = JoinEnv(
    accessGranted: bool,
    e164: Option<string>,
    openWaitlists: seq<string>,
    tokenBytes: seq<byte>,
    insertOk: bool,
    partyId: string,
    now: int,
    restaurantName: Option<string>,
    appUrl: string,
    smsConfigured: bool,
    wa: Provider,
    sms: Provider)

  datatype JoinResponse =
    | JoinInvalidInput
    | AccessFailed
    | JoinInvalidPhone
    | NoActiveWaitlist
    | CreateFailed
    | Joined(party: Party, statusLink: string, restaurant: Option<string>)

  function JoinStatus(r: JoinResponse): int
  {
    match r
    case JoinInvalidInput => 400
    case AccessFailed => 500
    case JoinInvalidPhone => 400
    case NoActiveWaitlist => 400
    case CreateFailed => 500
    case Joined(_, _, _) => 200
  }

  /** The row the insert creates: a queued party with the normalized phone,
      the token and the requested estimate. */
  function NewParty(b: CreatePartyBody, id: string, waitlistId: string, phone: string, token: string, now: int): Party
    requires ValidBody(b)
  {
    Party(id, waitlistId, b.restaurantId, b.name, phone, b.size.Floor, Queued, token,
          Some(b.etaMinutes.Floor), b.notes, now, now, None, None, None, None)
  }

  /** The outcome of a join: the response, the row inserted and the
      confirmation handed to the dispatcher, if any. */
  datatype JoinPlan = JoinPlan(response: JoinResponse, inserted: Option<Party>, notice: Option<DispatchArgs>)

  /** The handler's sequence: schema, access, phone, the single open
      waitlist, insert, then the confirmation. */
  function JoinSpec(b: CreatePartyBody, env: JoinEnv): (p: JoinPlan)
    ensures p.inserted.Some? <==> p.response.Joined?
    ensures p.response.Joined? ==> p.response.party == p.inserted.value
    ensures p.notice.Some? ==> p.inserted.Some? && env.smsConfigured
  {
    if !ValidBody(b) then JoinPlan(JoinInvalidInput, None, None)
    else if !env.accessGranted then JoinPlan(AccessFailed, None, None)
    else if env.e164.None? then JoinPlan(JoinInvalidPhone, None, None)
    else if |env.openWaitlists| != 1 then JoinPlan(NoActiveWaitlist, None, None)
    else if !env.insertOk then JoinPlan(CreateFailed, None, None)
    else
      var phone := CollapseMobilePrefix(env.e164.value);
      var token := HexEncode(env.tokenBytes);
      var party := NewParty(b, env.partyId, env.openWaitlists[0], phone, token, env.now);
      var link := StatusLink(env.appUrl, token);
      var notice := DispatchArgs(party.id, phone, b.name, link, RestaurantDisplayName(env.restaurantName), None);
      JoinPlan(Joined(party, link, env.restaurantName), Some(party), if env.smsConfigured then Some(notice) else None)
  }

  /** Every early return precedes the insert, as `JoinSpec`'s contract says
      of the stored row. An invalid phone is reported before the waitlist is
      looked up, and a missing or ambiguous open waitlist stops the handler
      before it inserts. */
  lemma EarlyReturnsInsertNothing(b: CreatePartyBody, env: JoinEnv)
    ensures var plan := JoinSpec(b, env);
      && (ValidBody(b) && env.accessGranted && env.e164.None? ==> plan.response == JoinInvalidPhone)
      && (ValidBody(b) && env.accessGranted && env.e164.Some? && |env.openWaitlists| != 1 ==>
            plan.response == NoActiveWaitlist)
      && (!ValidBody(b) ==> plan.response == JoinInvalidInput)
  {
  }

  /** The token is 64 lowercase hexadecimal characters that encode the 32
      random bytes, and the status link ends in it. */
  lemma TokenAndLinkShape(b: CreatePartyBody, env: JoinEnv)
    requires |env.tokenBytes| == 32
    requires JoinSpec(b, env).response.Joined?
    ensures var r := JoinSpec(b, env).response;
      && |r.party.token| == 64
      && (forall i :: 0 <= i < 64 ==> IsLowerHex(r.party.token[i]))
      && HexDecode(r.party.token) == env.tokenBytes
      && r.statusLink == env.appUrl + "/status/" + r.party.token
  {
    HexRoundTrip(env.tokenBytes);
  }

  /** Different random bytes give different tokens. */
  lemma TokenInjective(a: seq<byte>, b: seq<byte>)
    requires HexEncode(a) == HexEncode(b)
    ensures a == b
  {
    HexRoundTrip(a);
    HexRoundTrip(b);
  }

  /** The confirmation goes to the very string stored as the party's phone,
      the collapsed E.164 form, and names the stored party and its link. */
  lemma RecipientIsStoredPhone(b: CreatePartyBody, env: JoinEnv)
    requires JoinSpec(b, env).notice.Some?
    ensures var plan := JoinSpec(b, env);
      && env.e164.Some?
      && plan.notice.value.to == plan.inserted.value.phone == CollapseMobilePrefix(env.e164.value)
      && plan.notice.value.partyId == plan.inserted.value.id
      && plan.notice.value.link == plan.response.statusLink
  {
  }

  /** The stored row holds the request's fields, in a queued state and with
      the requested estimate. */
  lemma StoredPartyFields(b: CreatePartyBody, env: JoinEnv)
    requires JoinSpec(b, env).inserted.Some?
    ensures var p := JoinSpec(b, env).inserted.value;
      && p.state == Queued
      && p.name == b.name && p.restaurantId == b.restaurantId && p.notes == b.notes
      && p.size as real == b.size && 1 <= p.size <= 12
      && p.etaMinutes.Some? && p.etaMinutes.value as real == b.etaMinutes
      && 5 <= p.etaMinutes.value <= 120
      && p.waitlistId == env.openWaitlists[0]
  {
  }

  /** Whatever the providers do, and whether or not the SMS provider can be
      built, the response and the stored row are the same: the
      confirmation's failure is caught and never reaches the caller. */
  lemma NotificationNeverAffectsResponse(b: CreatePartyBody, env: JoinEnv, wa: Provider, sms: Provider, configured: bool)
    ensures var env' := env.(wa := wa, sms := sms, smsConfigured := configured);
      && JoinSpec(b, env').response == JoinSpec(b, env).response
      && JoinSpec(b, env').inserted == JoinSpec(b, env).inserted
  {
  }

  /** The `parties` table. */
  class PartyTable {
    var rows: seq<Party>

    constructor ()
      ensures rows == []
    {
      rows := [];
    }

    method Insert(p: Party)
      modifies this
      ensures rows == old(rows) + [p]
    {
      rows := rows + [p];
    }
  }

  /** The join handler. The confirmation's recorder is a store insert, which
      reports errors in its result instead of throwing, so it never throws;
      the dispatch result is ignored. */
  method CreateParty(table: PartyTable, dispatcher: Dispatcher, b: CreatePartyBody, env: JoinEnv)
    returns (resp: JoinResponse)
    modifies table, dispatcher
    ensures var plan := JoinSpec(b, env);
      && resp == plan.response
      && table.rows == old(table.rows) + (if plan.inserted.Some? then [plan.inserted.value] else [])
      && (plan.notice.None? ==> dispatcher.calls == old(dispatcher.calls) && dispatcher.records == old(dispatcher.records))
      && (plan.notice.Some? ==>
            var tr := Dispatch(env.wa, env.sms, JoinConfirm, plan.notice.value, NoFaults);
            dispatcher.calls == old(dispatcher.calls) + tr.calls
            && dispatcher.records == old(dispatcher.records) + tr.records)
  {
    if !ValidBody(b) {
      return JoinInvalidInput;
    }
    if !env.accessGranted {
      return AccessFailed;
    }
    if env.e164.None? {
      return JoinInvalidPhone;
    }
    var phone := CollapseMobilePrefix(env.e164.value);
    if |env.openWaitlists| != 1 {
      return NoActiveWaitlist;
    }
    var token := HexEncode(env.tokenBytes);
    if !env.insertOk {
      return CreateFailed;
    }
    var party := NewParty(b, env.partyId, env.openWaitlists[0], phone, token, env.now);
    table.Insert(party);
    var link := StatusLink(env.appUrl, token);
    if env.smsConfigured {
      var args := DispatchArgs(party.id, phone, b.name, link, RestaurantDisplayName(env.restaurantName), None);
      var _ := dispatcher.SendWithFallback(env.wa, env.sms, JoinConfirm, args, NoFaults);
    }
    resp := Joined(party, link, env.restaurantName);
  }
}
