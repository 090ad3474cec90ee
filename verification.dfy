/** Phone verification: issuing a code (app/api/verify/send/route.ts) and
    confirming it (app/api/verify/confirm/route.ts) against the
    `phone_verifications` table. The phone library, the random draw, the clock,
    the store's error results and the SMS transport are parameters. */
module Verification {
  import opened Common
  import opened Types
  import opened RateLimit
  import opened Phone

  const IpLimit := 5
  const IpWindowMs := 15 * 60 * 1000
  const PhoneLimit := 3
  const PhoneWindowMs := 5 * 60 * 1000
  const CodeTtlMs := 10 * 60 * 1000
  const ExpiresInSeconds := 600

  /** `x-forwarded-for || x-real-ip || 'unknown'`: an absent or empty header
      falls through to the next. */
  function ClientIp(forwardedFor: Option<string>, realIp: Option<string>): (ip: string)
    ensures |ip| > 0
    ensures forwardedFor.Some? && forwardedFor.value != "" ==> ip == forwardedFor.value
    ensures (forwardedFor.None? || forwardedFor.value == "") && realIp.Some? && realIp.value != "" ==> ip == realIp.value
    ensures (forwardedFor.None? || forwardedFor.value == "") && (realIp.None? || realIp.value == "") ==> ip == "unknown"
  {
    if forwardedFor.Some? && forwardedFor.value != "" then forwardedFor.value
    else if realIp.Some? && realIp.value != "" then realIp.value
    else "unknown"
  }

  /** `randomInt(100000, 999999).toString()`: the draw excludes its upper
      bound, so the code is a six-digit string without a leading zero. */
  function VerificationCode(drawn: int): (code: string)
    requires 100000 <= drawn < 999999
    ensures |code| == 6 && AllDigits(code) && code[0] != '0'
  {
    assert Pow10(5) == 100000 && Pow10(6) == 1000000 by {
      assert Pow10(1) == 10 && Pow10(2) == 100 && Pow10(3) == 1000 && Pow10(4) == 10000;
    }
    DecimalStringLength(drawn, 6);
    LeadingDigitNonZero(drawn);
    DecimalString(drawn)
  }

  lemma {:induction false} LeadingDigitNonZero(n: nat)
    requires n >= 1
    ensures DecimalString(n)[0] != '0'
  {
    if n >= 10 {
      LeadingDigitNonZero(n / 10);
    }
  }

  /** The row the send handler inserts for a successfully parsed phone. */
  function IssuedRow(e164: string, drawn: int, now: int, rowId: nat): (row: PhoneVerification)
    requires 100000 <= drawn < 999999
    ensures row.phone == CollapseMobilePrefix(e164) && !row.verified
    ensures row.expiresAt == now + ExpiresInSeconds * 1000
  {
    PhoneVerification(rowId, CollapseMobilePrefix(e164), VerificationCode(drawn), now + CodeTtlMs, false, now)
  }

  datatype SendRequest = SendRequest(phone: string, forwardedFor: Option<string>, realIp: Option<string>)

  /** What the send handler receives from outside: the clock, the phone
      library's E.164 result (`None` when it throws), the random draw, the id
      the store gives the row, whether the insert and the SMS succeed, and
      whether it runs in development mode. */
  datatype SendEnv = SendEnv(
    now: int,
    e164: Option<string>,
    drawn: int,
    rowId: nat,
    insertOk: bool,
    smsOk: bool,
    development: bool)

  datatype SendResponse =
    | SendInvalidInput
    | IpRateLimited
    | PhoneRateLimited
    | SendInvalidPhone
    | StoreFailed
    | SmsFailed
    | CodeSent(expiresIn: int)

  function SendStatus(r: SendResponse): int
  {
    match r
    case SendInvalidInput => 400
    case IpRateLimited => 429
    case PhoneRateLimited => 429
    case SendInvalidPhone => 400
    case StoreFailed => 500
    case SmsFailed => 500
    case CodeSent(_) => 200
  }

  function IpKey(req: SendRequest): string
  {
    RateLimitKey(ClientIp(req.forwardedFor, req.realIp), "verify_ip")
  }

  /** The phone limiter is keyed by the raw phone string, before any parsing. */
  function PhoneKey(req: SendRequest): string
  {
    RateLimitKey(req.phone, "verify_phone")
  }

  /** The two keys never coincide, whatever the IP and phone strings. */
  lemma IpAndPhoneKeysDiffer(req: SendRequest)
    ensures IpKey(req) != PhoneKey(req)
  {
    if IpKey(req) == PhoneKey(req) {
      RateLimitKeyInjective(ClientIp(req.forwardedFor, req.realIp), "verify_ip", req.phone, "verify_phone");
      assert false;
    }
  }

  /** The limiter store after both checks, and the two verdicts. */
  datatype LimiterPass = LimiterPass(ip: Verdict, phone: Verdict, store: map<string, Entry>)

  function BothChecks(store: map<string, Entry>, req: SendRequest, now: int): LimiterPass
  {
    var ip := Check(Lookup(store, IpKey(req)), IpLimit, IpWindowMs, now);
    var store1 := store[IpKey(req) := ip.entry];
    var phone := Check(Lookup(store1, PhoneKey(req)), PhoneLimit, PhoneWindowMs, now);
    LimiterPass(ip.verdict, phone.verdict, store1[PhoneKey(req) := phone.entry])
  }

  /** The outcome of a send: the response, the limiter store afterwards and
      the row inserted, if any. */
  datatype SendPlan = SendPlan(response: SendResponse, store: map<string, Entry>, row: Option<PhoneVerification>)

  /** The send handler's early-return sequence. */
  function SendSpec(store: map<string, Entry>, req: SendRequest, env: SendEnv): (p: SendPlan)
    requires 100000 <= env.drawn < 999999
    ensures p.response == SendInvalidInput <==> |req.phone| == 0
    ensures |req.phone| == 0 ==> p.store == store && p.row.None?
    ensures |req.phone| > 0 ==> p.store == BothChecks(store, req, env.now).store
    ensures p.row.Some? ==> env.e164.Some? && env.insertOk && p.row.value == IssuedRow(env.e164.value, env.drawn, env.now, env.rowId)
  {
    if |req.phone| == 0 then SendPlan(SendInvalidInput, store, None)
    else
      var pass := BothChecks(store, req, env.now);
      if !pass.ip.allowed then SendPlan(IpRateLimited, pass.store, None)
      else if !pass.phone.allowed then SendPlan(PhoneRateLimited, pass.store, None)
      else if env.e164.None? then SendPlan(SendInvalidPhone, pass.store, None)
      else if !env.insertOk then SendPlan(StoreFailed, pass.store, None)
      else
        var row := IssuedRow(env.e164.value, env.drawn, env.now, env.rowId);
        if !env.smsOk && !env.development then SendPlan(SmsFailed, pass.store, Some(row))
        else SendPlan(CodeSent(ExpiresInSeconds), pass.store, Some(row))
  }

  /** Both limiters are consulted before either verdict is read: a request
      refused for its IP still uses up one of the phone's slots, even when the
      phone string cannot be parsed. */
  lemma IpRejectionStillCountsPhone(store: map<string, Entry>, req: SendRequest, env: SendEnv)
    requires 100000 <= env.drawn < 999999
    requires |req.phone| > 0
    requires PhoneKey(req) in store && !Expired(store[PhoneKey(req)], env.now)
    requires store[PhoneKey(req)].count < PhoneLimit
    ensures var plan := SendSpec(store, req, env);
      && PhoneKey(req) in plan.store
      && plan.store[PhoneKey(req)] == store[PhoneKey(req)].(count := store[PhoneKey(req)].count + 1)
  {
    IpAndPhoneKeysDiffer(req);
  }

  /** When both limits are exceeded the IP refusal is the one reported; no
      row is written when either refuses. */
  lemma IpRefusalReportedFirst(store: map<string, Entry>, req: SendRequest, env: SendEnv)
    requires 100000 <= env.drawn < 999999
    requires |req.phone| > 0
    ensures var pass, plan := BothChecks(store, req, env.now), SendSpec(store, req, env);
      && (!pass.ip.allowed ==> plan.response == IpRateLimited)
      && (pass.ip.allowed && !pass.phone.allowed ==> plan.response == PhoneRateLimited)
      && (!pass.ip.allowed || !pass.phone.allowed ==> plan.row.None? && SendStatus(plan.response) == 429)
  {
  }

  /** A stored row holds the collapsed E.164 phone, a six-digit code, is
      unverified and expires 600 000 ms after issue, matching the reported
      `expiresIn: 600` seconds. It is written before the SMS is attempted, so
      it stays when the SMS fails. */
  lemma IssuedRowShape(store: map<string, Entry>, req: SendRequest, env: SendEnv)
    requires 100000 <= env.drawn < 999999
    ensures var plan := SendSpec(store, req, env);
      && (plan.row.Some? <==> plan.response == SmsFailed || plan.response.CodeSent?)
      && (plan.row.Some? ==>
            && env.e164.Some?
            && plan.row.value.phone == CollapseMobilePrefix(env.e164.value)
            && |plan.row.value.code| == 6 && AllDigits(plan.row.value.code)
            && !plan.row.value.verified
            && plan.row.value.expiresAt == env.now + CodeTtlMs)
      && (plan.response.CodeSent? ==> plan.response.expiresIn * 1000 == CodeTtlMs)
      && (plan.response == SmsFailed <==> plan.row.Some? && !env.smsOk && !env.development)
  {
  }

  /** A confirmable row: same phone, same code, unverified, not yet expired. */
  predicate Matches(r: PhoneVerification, phone: string, code: string, now: int)
  {
    r.phone == phone && r.code == code && !r.verified && r.expiresAt > now
  }

  ghost predicate IsNewestMatch(rows: seq<PhoneVerification>, k: nat, phone: string, code: string, now: int)
  {
    && k < |rows|
    && Matches(rows[k], phone, code, now)
    && forall i :: 0 <= i < |rows| && Matches(rows[i], phone, code, now) ==> rows[i].createdAt <= rows[k].createdAt
  }

  /** The confirm query: `.eq(phone).eq(code).eq(verified, false)
      .gt(expires_at, now).order(created_at desc).limit(1)`. */
  method NewestMatch(rows: seq<PhoneVerification>, phone: string, code: string, now: int) returns (k: Option<nat>)
    ensures k.None? <==> forall i :: 0 <= i < |rows| ==> !Matches(rows[i], phone, code, now)
    ensures k.Some? ==> IsNewestMatch(rows, k.value, phone, code, now)
  {
    k := None;
    var i := 0;
    while i < |rows|
      invariant 0 <= i <= |rows|
      invariant k.None? <==> forall j :: 0 <= j < i ==> !Matches(rows[j], phone, code, now)
      invariant k.Some? ==> k.value < i && Matches(rows[k.value], phone, code, now)
      invariant k.Some? ==> forall j :: 0 <= j < i && Matches(rows[j], phone, code, now) ==>
        rows[j].createdAt <= rows[k.value].createdAt
    {
      if Matches(rows[i], phone, code, now) && (k.None? || rows[i].createdAt > rows[k.value].createdAt) {
        k := Some(i);
      }
      i := i + 1;
    }
  }

  /** `update({ verified: true }).eq('id', ...)` on the chosen row. */
  function MarkVerified(rows: seq<PhoneVerification>, k: nat): (rows': seq<PhoneVerification>)
    requires k < |rows|
    ensures |rows'| == |rows| && rows'[k].verified
    ensures forall i :: 0 <= i < |rows| && i != k ==> rows'[i] == rows[i]
  {
    rows[k := rows[k].(verified := true)]
  }

  /** A confirmed code is consumed: afterwards a row matches exactly when it
      matched before and is not the one just confirmed, so confirming the same
      phone and code again succeeds only through another live duplicate. */
  lemma ConfirmedRowIsConsumed(rows: seq<PhoneVerification>, k: nat, phone: string, code: string, now: int)
    requires k < |rows|
    ensures forall i :: 0 <= i < |rows| ==>
      (Matches(MarkVerified(rows, k)[i], phone, code, now) <==> i != k && Matches(rows[i], phone, code, now))
  {
  }

  datatype ConfirmRequest = ConfirmRequest(phone: string, code: string)

  /** The clock, the phone library's E.164 result and whether the update
      succeeds. */
  datatype ConfirmEnv = ConfirmEnv(now: int, e164: Option<string>, updateOk: bool)

  datatype ConfirmResponse = ConfirmInvalidInput | ConfirmInvalidPhone | CodeNotFound | UpdateFailed | PhoneVerified

  function ConfirmStatus(r: ConfirmResponse): int
  {
    match r
    case ConfirmInvalidInput => 400
    case ConfirmInvalidPhone => 400
    case CodeNotFound => 400
    case UpdateFailed => 500
    case PhoneVerified => 200
  }

  /** The phone confirm looks rows up by: the library's E.164 string as it is,
      without the `+549` collapse that send applies. */
  function ConfirmLookupPhone(e164: string): string
  {
    e164
  }

  /** The two handlers disagree: a code issued for a phone whose E.164 form
      starts `+549` is stored under the collapsed `+54...` string, which the
      confirm lookup never produces for the same input, so it can never be
      confirmed. For every other phone the issued code is found until it
      expires. */
  lemma IssuedCodeConfirmableIff(e164: string, drawn: int, issuedAt: int, rowId: nat, now: int)
    requires 100000 <= drawn < 999999
    requires issuedAt <= now < issuedAt + CodeTtlMs
    ensures var row := IssuedRow(e164, drawn, issuedAt, rowId);
      Matches(row, ConfirmLookupPhone(e164), row.code, now) <==> !StartsWith(e164, "+549")
  {
    CollapseKeepsCountryCode(e164);
  }

  /** The `phone_verifications` table. */
  class VerificationTable {
    var rows: seq<PhoneVerification>

    constructor ()
      ensures rows == []
    {
      rows := [];
    }

    method Insert(row: PhoneVerification)
      modifies this
      ensures rows == old(rows) + [row]
    {
      rows := rows + [row];
    }

    /** The confirm handler. */
    method Confirm(req: ConfirmRequest, env: ConfirmEnv) returns (resp: ConfirmResponse, chosen: Option<nat>)
      modifies this
      ensures (|req.phone| == 0 || |req.code| != 6) ==> resp == ConfirmInvalidInput
      ensures |req.phone| > 0 && |req.code| == 6 && env.e164.None? ==> resp == ConfirmInvalidPhone
      ensures chosen.None? ==> rows == old(rows)
      ensures (|req.phone| == 0 || |req.code| != 6 || env.e164.None?) ==> chosen.None? && rows == old(rows)
      ensures resp != PhoneVerified ==> rows == old(rows)
      ensures |req.phone| > 0 && |req.code| == 6 && env.e164.Some? ==>
        var phone := ConfirmLookupPhone(env.e164.value);
        && (chosen.None? <==> forall i :: 0 <= i < |old(rows)| ==> !Matches(old(rows)[i], phone, req.code, env.now))
        && (chosen.None? ==> resp == CodeNotFound)
        && (chosen.Some? ==> IsNewestMatch(old(rows), chosen.value, phone, req.code, env.now))
        && (chosen.Some? && env.updateOk ==> resp == PhoneVerified && rows == MarkVerified(old(rows), chosen.value))
        && (chosen.Some? && !env.updateOk ==> resp == UpdateFailed && rows == old(rows))
    {
      chosen := None;
      if |req.phone| == 0 || |req.code| != 6 {
        return ConfirmInvalidInput, None;
      }
      if env.e164.None? {
        return ConfirmInvalidPhone, None;
      }
      var phone := ConfirmLookupPhone(env.e164.value);
      chosen := NewestMatch(rows, phone, req.code, env.now);
      if chosen.None? {
        return CodeNotFound, None;
      }
      if !env.updateOk {
        return UpdateFailed, chosen;
      }
      rows := MarkVerified(rows, chosen.value);
      resp := PhoneVerified;
    }
  }

  /** The send handler: two limiter checks, then parsing, then the insert,
      then the SMS attempt; as `SendSpec` specifies. */
  method SendCode(limiter: MemoryRateLimit, table: VerificationTable, req: SendRequest, env: SendEnv)
    returns (resp: SendResponse)
    requires 100000 <= env.drawn < 999999
    modifies limiter, table
    ensures var plan := SendSpec(old(limiter.store), req, env);
      && resp == plan.response
      && limiter.store == plan.store
      && table.rows == old(table.rows) + (if plan.row.Some? then [plan.row.value] else [])
  {
    if |req.phone| == 0 {
      return SendInvalidInput;
    }
    var ipLimit := CheckRateLimit(limiter, ClientIp(req.forwardedFor, req.realIp), "verify_ip", IpLimit, IpWindowMs, env.now);
    var phoneLimit := CheckRateLimit(limiter, req.phone, "verify_phone", PhoneLimit, PhoneWindowMs, env.now);
    if !ipLimit.allowed {
      return IpRateLimited;
    }
    if !phoneLimit.allowed {
      return PhoneRateLimited;
    }
    if env.e164.None? {
      return SendInvalidPhone;
    }
    if !env.insertOk {
      return StoreFailed;
    }
    table.Insert(IssuedRow(env.e164.value, env.drawn, env.now, env.rowId));
    if !env.smsOk && !env.development {
      return SmsFailed;
    }
    resp := CodeSent(ExpiresInSeconds);
  }
}
