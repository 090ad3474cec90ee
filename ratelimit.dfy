/** The in-memory fixed-window rate limiter (lib/rate-limit/memory.ts). The
    clock (`Date.now()`) is a parameter of every operation. */
module RateLimit {
  import opened Common

  datatype Entry = Entry(count: int, resetTime: int)

  datatype Verdict = Verdict(allowed: bool, remaining: int, resetTime: int)

  /** An entry whose window has passed is treated as absent. */
  predicate Expired(e: Entry, now: int)
  {
    e.resetTime < now
  }

  function Lookup(store: map<string, Entry>, key: string): Option<Entry>
  {
    if key in store then Some(store[key]) else None
  }

  /** The verdict of one check and the entry stored for the key afterwards. */
  datatype CheckOutcome = CheckOutcome(verdict: Verdict, entry: Entry)

  /** The decision `checkLimit` makes from the key's current entry. */
  function Check(e: Option<Entry>, limit: int, windowMs: int, now: int): (o: CheckOutcome)
    // absent or expired: a fresh window, allowed even when limit <= 0
    ensures (e.None? || Expired(e.value, now)) ==>
      o == CheckOutcome(Verdict(true, limit - 1, now + windowMs), Entry(1, now + windowMs))
    // live and full: denied, nothing stored changes
    ensures e.Some? && !Expired(e.value, now) && e.value.count >= limit ==>
      o == CheckOutcome(Verdict(false, 0, e.value.resetTime), e.value)
    // live with room: one more use in the same window
    ensures e.Some? && !Expired(e.value, now) && e.value.count < limit ==>
      && o.entry == Entry(e.value.count + 1, e.value.resetTime)
      && o.verdict == Verdict(true, limit - o.entry.count, e.value.resetTime)
    ensures o.verdict.resetTime == o.entry.resetTime
  {
    if e.None? || Expired(e.value, now) then
      CheckOutcome(Verdict(true, limit - 1, now + windowMs), Entry(1, now + windowMs))
    else if e.value.count >= limit then
      CheckOutcome(Verdict(false, 0, e.value.resetTime), e.value)
    else
      var entry := e.value.(count := e.value.count + 1);
      CheckOutcome(Verdict(true, limit - entry.count, entry.resetTime), entry)
  }

  /** The sweep: drop exactly the entries whose window has passed. */
  function Swept(store: map<string, Entry>, now: int): (m: map<string, Entry>)
    ensures forall k :: k in m <==> k in store && !Expired(store[k], now)
    ensures forall k :: k in m ==> m[k] == store[k]
  {
    map k | k in store && !Expired(store[k], now) :: store[k]
  }

  /** How many of a run of checks on one key, at the given times, are allowed. */
  function AllowedIn(e: Option<Entry>, limit: int, windowMs: int, times: seq<int>): nat
    decreases |times|
  {
    if times == [] then 0
    else
      var o := Check(e, limit, windowMs, times[0]);
      (if o.verdict.allowed then 1 else 0) + AllowedIn(Some(o.entry), limit, windowMs, times[1..])
  }

  /** Inside a live window the key's remaining allowance is limit - count:
      the window's reset time never moves, so no check can extend it. */
  lemma {:induction false} LiveWindowAllowance(en: Entry, limit: int, windowMs: int, times: seq<int>)
    requires forall i :: 0 <= i < |times| ==> !Expired(en, times[i])
    ensures AllowedIn(Some(en), limit, windowMs, times) <= Max(0, limit - en.count)
    decreases |times|
  {
    if times != [] {
      var o := Check(Some(en), limit, windowMs, times[0]);
      assert o.entry.resetTime == en.resetTime;
      LiveWindowAllowance(o.entry, limit, windowMs, times[1..]);
    }
  }

  /** With limit >= 1, of all the checks on one key made within one window
      (from the check that opens it up to its reset time), at most `limit` are
      allowed. */
  lemma AtMostLimitPerWindow(e: Option<Entry>, limit: int, windowMs: int, times: seq<int>)
    requires limit >= 1 && |times| > 0
    requires e.None? || Expired(e.value, times[0])
    requires forall i :: 0 <= i < |times| ==> times[i] <= times[0] + windowMs
    ensures AllowedIn(e, limit, windowMs, times) <= limit
  {
    var o := Check(e, limit, windowMs, times[0]);
    assert o.entry == Entry(1, times[0] + windowMs);
    forall i | 0 <= i < |times[1..]| ensures !Expired(o.entry, times[1..][i]) {
      assert times[1..][i] == times[i + 1];
    }
    LiveWindowAllowance(o.entry, limit, windowMs, times[1..]);
  }

  /** With limit >= 1, a stored count never exceeds the limit. */
  lemma CountNeverExceedsLimit(e: Option<Entry>, limit: int, windowMs: int, now: int)
    requires limit >= 1
    requires e.Some? ==> e.value.count <= limit
    ensures Check(e, limit, windowMs, now).entry.count <= limit
    ensures Check(e, limit, windowMs, now).verdict.remaining >= 0
  {
  }

  /** A sweep at time `sweptAt` never changes the verdict, nor the stored
      entry, of any later check: a swept entry had already expired. */
  lemma SweepKeepsVerdicts(store: map<string, Entry>, sweptAt: int, key: string, limit: int, windowMs: int, now: int)
    requires sweptAt <= now
    ensures Check(Lookup(Swept(store, sweptAt), key), limit, windowMs, now)
         == Check(Lookup(store, key), limit, windowMs, now)
  {
  }

  /** `createRateLimitKey`: the limiter key is `type:identifier`. */
  function RateLimitKey(identifier: string, kind: string): (key: string)
    ensures |key| == |kind| + 1 + |identifier|
    ensures StartsWith(key, kind + ":") && key[|kind| + 1..] == identifier
  {
    kind + ":" + identifier
  }

  /** The index of the first colon of a string (its length if it has none). */
  function ColonIndex(s: string): (i: nat)
    ensures i <= |s|
  {
    if s == [] || s[0] == ':' then 0 else 1 + ColonIndex(s[1..])
  }

  lemma {:induction false} ColonAfterKind(kind: string, identifier: string)
    requires ':' !in kind
    ensures ColonIndex(RateLimitKey(identifier, kind)) == |kind|
  {
    if kind != [] {
      assert RateLimitKey(identifier, kind)[1..] == RateLimitKey(identifier, kind[1..]);
      ColonAfterKind(kind[1..], identifier);
    }
  }

  /** For key kinds without a colon (such as `verify_ip`, `verify_phone`) the
      key determines both its kind and its identifier, so different kinds
      never share a counter even when an identifier contains colons. */
  lemma RateLimitKeyInjective(i1: string, k1: string, i2: string, k2: string)
    requires ':' !in k1 && ':' !in k2
    requires RateLimitKey(i1, k1) == RateLimitKey(i2, k2)
    ensures k1 == k2 && i1 == i2
  {
    ColonAfterKind(k1, i1);
    ColonAfterKind(k2, i2);
    var key := RateLimitKey(i1, k1);
    assert k1 == key[..|k1|] && k2 == key[..|k2|];
  }

  class MemoryRateLimit {
    var store: map<string, Entry>

    constructor ()
      ensures store == map[]
    {
      store := map[];
    }

    /** `checkLimit`: decide as `Check` does and store its entry under `key`;
        no other key's entry changes, and a denial changes nothing. */
    method CheckLimit(key: string, limit: int, windowMs: int, now: int) returns (v: Verdict)
      modifies this
      ensures var o := Check(Lookup(old(store), key), limit, windowMs, now);
        v == o.verdict && store == old(store)[key := o.entry]
      ensures forall k :: k != key ==> Lookup(store, k) == Lookup(old(store), k)
      ensures !v.allowed ==> store == old(store)
    {
      if key !in store || store[key].resetTime < now {
        store := store[key := Entry(1, now + windowMs)];
        return Verdict(true, limit - 1, now + windowMs);
      }
      var entry := store[key];
      if entry.count >= limit {
        return Verdict(false, 0, entry.resetTime);
      }
      entry := entry.(count := entry.count + 1);
      store := store[key := entry];
      v := Verdict(true, limit - entry.count, entry.resetTime);
    }

    /** The periodic cleanup: delete every entry whose window has passed. */
    method Sweep(now: int)
      modifies this
      ensures store == Swept(old(store), now)
    {
      var pending := store.Keys;
      while pending != {}
        invariant pending <= old(store).Keys
        invariant forall k :: k in store <==> k in old(store) && (k in pending || !Expired(old(store)[k], now))
        invariant forall k :: k in store ==> store[k] == old(store)[k]
        decreases pending
      {
        var k :| k in pending;
        if store[k].resetTime < now {
          store := store - {k};
        }
        pending := pending - {k};
      }
    }
  }

  /** `checkRateLimit`: a check on the shared limiter under the key of the
      given kind and identifier. */
  method CheckRateLimit(limiter: MemoryRateLimit, identifier: string, kind: string, limit: int, windowMs: int, now: int)
    returns (v: Verdict)
    modifies limiter
    ensures var key := RateLimitKey(identifier, kind);
      var o := Check(Lookup(old(limiter.store), key), limit, windowMs, now);
      v == o.verdict && limiter.store == old(limiter.store)[key := o.entry]
  {
    v := limiter.CheckLimit(RateLimitKey(identifier, kind), limit, windowMs, now);
  }
}
