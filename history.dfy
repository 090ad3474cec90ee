/** The history statistics (app/api/history/route.ts): counts by state, the
    per-party wait and its average, the wait-time histogram, the hourly and
    daily distributions with their peaks, and the history entries. Local
    midnight and the weekday of today are the caller's: they come from the
    calendar. */
module History {
  import opened Common
  import opened Types

  const MsPerMinute := 60000
  const HourMs := 3600000
  const DayMs := 86400000

  /** `parties.filter(party => party.state === name).length`, on the state
      column's spelling. */
  function CountState(ps: seq<Party>, name: string): (n: nat)
    ensures n <= |ps|
    ensures n == 0 <==> forall i :: 0 <= i < |ps| ==> StateName(ps[i].state) != name
  {
    if ps == [] then 0
    else (if StateName(ps[0].state) == name then 1 else 0) + CountState(ps[1..], name)
  }

  /** The `cancelled` filter compares against a spelling no state has: the
      column holds `canceled`, so the cancelled count is zero for every list,
      however many parties were canceled. */
  lemma CancelledCountIsAlwaysZero(ps: seq<Party>)
    ensures CountState(ps, "cancelled") == 0
    ensures (exists i :: 0 <= i < |ps| && ps[i].state == Canceled) ==> CountState(ps, "canceled") > 0
  {
  }

  /** The seated parties, in list order. */
  function Served(ps: seq<Party>): (r: seq<Party>)
    ensures |r| == CountState(ps, "seated")
    ensures forall p :: p in r <==> p in ps && p.state == Seated
  {
    if ps == [] then []
    else (if ps[0].state == Seated then [ps[0]] else []) + Served(ps[1..])
  }

  /** `Math.round((updated_at - created_at) / 60000)`: whole minutes rounded
      to nearest, halves up. */
  function PartyWait(p: Party): (w: int)
    ensures 2 * MsPerMinute * w <= 2 * (p.updatedAt - p.createdAt) + MsPerMinute < 2 * MsPerMinute * (w + 1)
  {
    RoundDiv(p.updatedAt - p.createdAt, MsPerMinute)
  }

  function Waits(ps: seq<Party>): (ws: seq<int>)
    ensures |ws| == |ps| && forall i :: 0 <= i < |ps| ==> ws[i] == PartyWait(ps[i])
  {
    if ps == [] then [] else [PartyWait(ps[0])] + Waits(ps[1..])
  }

  /** The average of the served parties' rounded waits, rounded again; zero
      when nobody was served. */
  function AvgWaitTime(ps: seq<Party>): (avg: int)
    ensures |Served(ps)| == 0 ==> avg == 0
    ensures |Served(ps)| > 0 ==> NearestQuotient(avg, Sum(Waits(Served(ps))), |Served(ps)|)
  {
    var served := Served(ps);
    if |served| > 0 then RoundDiv(Sum(Waits(served)), |served|) else 0
  }

  /** The average lies between the shortest and the longest served wait. */
  lemma AvgWaitBetween(ps: seq<Party>, lo: int, hi: int)
    requires |Served(ps)| > 0
    requires forall p :: p in Served(ps) ==> lo <= PartyWait(p) <= hi
    ensures lo <= AvgWaitTime(ps) <= hi
  {
    var served := Served(ps);
    var ws := Waits(served);
    assert forall i :: 0 <= i < |ws| ==> lo <= ws[i] <= hi by {
      forall i | 0 <= i < |ws| ensures lo <= ws[i] <= hi {
        assert served[i] in served;
      }
    }
    SumBounds(ws, lo, hi);
    RoundDivBetween(Sum(ws), |served|, lo, hi);
  }

  /** The histogram bucket of a rounded wait: 0-15, 16-30, 31-45, 46-60, 60+. */
  function Bucket(w: int): (b: nat)
    ensures b < 5
    ensures b == 0 <==> w <= 15
    ensures b == 4 <==> w > 60
    ensures 0 < b < 4 ==> 15 * b < w <= 15 * (b + 1)
  {
    if w <= 15 then 0
    else if w <= 30 then 1
    else if w <= 45 then 2
    else if w <= 60 then 3
    else 4
  }

  /** How many of the parties fall in bucket b. */
  function CountInBucket(ps: seq<Party>, b: nat): nat
  {
    if ps == [] then 0
    else (if Bucket(PartyWait(ps[0])) == b then 1 else 0) + CountInBucket(ps[1..], b)
  }

  /** The histogram the handler builds: five zeros, and one more in its
      bucket for each party in turn. */
  function WaitBuckets(served: seq<Party>): (h: seq<int>)
    ensures |h| == 5
  {
    if served == [] then [0, 0, 0, 0, 0]
    else
      var h := WaitBuckets(served[..|served| - 1]);
      var k := Bucket(PartyWait(served[|served| - 1]));
      h[k := h[k] + 1]
  }

  lemma Sum5(h: seq<int>)
    requires |h| == 5
    ensures Sum(h) == h[0] + h[1] + h[2] + h[3] + h[4]
  {
    assert h[4..][1..] == [];
    assert Sum(h[4..]) == h[4];
    assert h[3..][1..] == h[4..];
    assert Sum(h[3..]) == h[3] + h[4];
    assert h[2..][1..] == h[3..];
    assert Sum(h[2..]) == h[2] + h[3] + h[4];
    assert h[1..][1..] == h[2..];
    assert Sum(h[1..]) == h[1] + h[2] + h[3] + h[4];
  }

  lemma {:induction false} CountInBucketSnoc(ps: seq<Party>, p: Party, b: nat)
    ensures CountInBucket(ps + [p], b) == CountInBucket(ps, b) + (if Bucket(PartyWait(p)) == b then 1 else 0)
  {
    if ps != [] {
      assert (ps + [p])[1..] == ps[1..] + [p];
      CountInBucketSnoc(ps[1..], p, b);
    } else {
      assert [] + [p] == [p];
    }
  }

  /** Slot b of the histogram is the number of parties whose wait falls in
      bucket b. */
  lemma {:induction false} WaitBucketsCount(ps: seq<Party>, b: nat)
    requires b < 5
    ensures WaitBuckets(ps)[b] == CountInBucket(ps, b)
    decreases |ps|
  {
    if ps != [] {
      var init := ps[..|ps| - 1];
      WaitBucketsCount(init, b);
      assert ps == init + [ps[|ps| - 1]];
      CountInBucketSnoc(init, ps[|ps| - 1], b);
    }
  }

  /** Each party lands in exactly one bucket, so the buckets add up to the
      number of parties counted. */
  lemma {:induction false} BucketsSumToCount(ps: seq<Party>)
    ensures Sum(WaitBuckets(ps)) == |ps|
    decreases |ps|
  {
    Sum5(WaitBuckets(ps));
    if ps != [] {
      var init := ps[..|ps| - 1];
      BucketsSumToCount(init);
      Sum5(WaitBuckets(init));
    } else {
      assert WaitBuckets(ps) == [0, 0, 0, 0, 0];
    }
  }

  /** The `if … else if …` chain: one more in the wait's bucket. */
  method Increment(dist: array<int>, w: int)
    requires dist.Length == 5
    modifies dist
    ensures dist[..] == old(dist[..])[Bucket(w) := old(dist[Bucket(w)]) + 1]
  {
    if w <= 15 {
      dist[0] := dist[0] + 1;
    } else if w <= 30 {
      dist[1] := dist[1] + 1;
    } else if w <= 45 {
      dist[2] := dist[2] + 1;
    } else if w <= 60 {
      dist[3] := dist[3] + 1;
    } else {
      dist[4] := dist[4] + 1;
    }
  }

  /** `servedParties.forEach(...)` incrementing a five-slot array. */
  method Tally(served: seq<Party>) returns (counts: seq<int>)
    ensures counts == WaitBuckets(served)
  {
    var dist := new int[5];
    dist[0], dist[1], dist[2], dist[3], dist[4] := 0, 0, 0, 0, 0;
    assert dist[..] == WaitBuckets(served[..0]);
    var i := 0;
    while i < |served|
      invariant 0 <= i <= |served|
      invariant dist[..] == WaitBuckets(served[..i])
    {
      Increment(dist, PartyWait(served[i]));
      assert served[..i + 1][..i] == served[..i];
      i := i + 1;
    }
    assert served[..|served|] == served;
    counts := dist[..];
  }

  /** The histogram of the served parties; it sums to the served count. */
  method CountWaitBuckets(ps: seq<Party>) returns (counts: seq<int>)
    ensures counts == WaitBuckets(Served(ps))
    ensures Sum(counts) == |Served(ps)| == CountState(ps, "seated")
  {
    counts := Tally(Served(ps));
    BucketsSumToCount(Served(ps));
  }

  /** Parties created in the half-open window [lo, hi). */
  function CountCreatedIn(ps: seq<Party>, lo: int, hi: int): (n: nat)
    ensures n <= |ps|
  {
    if ps == [] then 0
    else (if lo <= ps[0].createdAt < hi then 1 else 0) + CountCreatedIn(ps[1..], lo, hi)
  }

  /** The window holds every party exactly when they were all created in it. */
  lemma {:induction false} CountCreatedAll(ps: seq<Party>, lo: int, hi: int)
    ensures CountCreatedIn(ps, lo, hi) == |ps| <==> forall p :: p in ps ==> lo <= p.createdAt < hi
  {
    if ps != [] {
      CountCreatedAll(ps[1..], lo, hi);
      assert forall p :: p in ps ==> p == ps[0] || p in ps[1..];
    }
  }

  lemma {:induction false} CountCreatedSplit(ps: seq<Party>, lo: int, mid: int, hi: int)
    requires lo <= mid <= hi
    ensures CountCreatedIn(ps, lo, hi) == CountCreatedIn(ps, lo, mid) + CountCreatedIn(ps, mid, hi)
  {
    if ps != [] {
      CountCreatedSplit(ps[1..], lo, mid, hi);
    }
  }

  /** Counts over n consecutive windows of the given width. */
  function Windows(ps: seq<Party>, start: int, width: nat, n: nat): (ws: seq<nat>)
    ensures |ws| == n
    decreases n
  {
    if n == 0 then [] else [CountCreatedIn(ps, start, start + width)] + Windows(ps, start + width, width, n - 1)
  }

  lemma {:induction false} WindowAt(ps: seq<Party>, start: int, width: nat, n: nat, i: nat)
    requires i < n
    ensures Windows(ps, start, width, n)[i] == CountCreatedIn(ps, start + i * width, start + (i + 1) * width)
    decreases i
  {
    if i > 0 {
      WindowAt(ps, start + width, width, n - 1, i - 1);
      assert start + width + (i - 1) * width == start + i * width;
      assert start + width + i * width == start + (i + 1) * width;
    }
  }

  /** Consecutive windows partition the span they cover. */
  lemma {:induction false} WindowsSum(ps: seq<Party>, start: int, width: nat, n: nat)
    ensures Sum(Windows(ps, start, width, n)) == CountCreatedIn(ps, start, start + n * width)
    decreases n
  {
    if n > 0 {
      assert start + width + (n - 1) * width == start + n * width;
      assert (n - 1) * width >= 0;
      var w := Windows(ps, start, width, n);
      assert w[1..] == Windows(ps, start + width, width, n - 1);
      WindowsSum(ps, start + width, width, n - 1);
      CountCreatedSplit(ps, start, start + width, start + n * width);
    } else {
      CountCreatedEmpty(ps, start);
    }
  }

  lemma {:induction false} CountCreatedEmpty(ps: seq<Party>, t: int)
    ensures CountCreatedIn(ps, t, t) == 0
  {
    if ps != [] {
      CountCreatedEmpty(ps[1..], t);
    }
  }

  /** `created_at >= today`, with no upper bound. */
  function TodayParties(ps: seq<Party>, today: int): (r: seq<Party>)
    ensures forall p :: p in r <==> p in ps && p.createdAt >= today
  {
    if ps == [] then []
    else (if ps[0].createdAt >= today then [ps[0]] else []) + TodayParties(ps[1..], today)
  }

  /** The 24 hourly counts of today's parties. */
  function HourlyCounts(ps: seq<Party>, today: int): (hs: seq<nat>)
    ensures |hs| == 24
  {
    Windows(TodayParties(ps, today), today, HourMs, 24)
  }

  /** Hour h counts today's parties created in [today + h hours, today +
      h + 1 hours). */
  lemma HourlyCountAt(ps: seq<Party>, today: int, h: nat)
    requires h < 24
    ensures HourlyCounts(ps, today)[h] == CountCreatedIn(TodayParties(ps, today), today + h * HourMs, today + (h + 1) * HourMs)
  {
    WindowAt(TodayParties(ps, today), today, HourMs, 24, h);
  }

  /** The 24 hours together count today's parties created before the next
      midnight. */
  lemma HourlySum(ps: seq<Party>, today: int)
    ensures Sum(HourlyCounts(ps, today)) == CountCreatedIn(TodayParties(ps, today), today, today + DayMs)
  {
    WindowsSum(TodayParties(ps, today), today, HourMs, 24);
    assert today + 24 * HourMs == today + DayMs;
  }

  /** Hour h counts today's parties created in [today + h hours, today +
      h + 1 hours). The hours add up to the number of today's parties exactly
      when none of them is stamped at or after the next midnight. */
  lemma HourlyCountsCoverToday(ps: seq<Party>, today: int)
    ensures forall h :: 0 <= h < 24 ==>
      HourlyCounts(ps, today)[h] == CountCreatedIn(TodayParties(ps, today), today + h * HourMs, today + (h + 1) * HourMs)
    ensures Sum(HourlyCounts(ps, today)) == |TodayParties(ps, today)| <==>
      forall p :: p in TodayParties(ps, today) ==> p.createdAt < today + DayMs
  {
    forall h | 0 <= h < 24
      ensures HourlyCounts(ps, today)[h] == CountCreatedIn(TodayParties(ps, today), today + h * HourMs, today + (h + 1) * HourMs)
    {
      HourlyCountAt(ps, today, h);
    }
    HourlySum(ps, today);
    CountCreatedAll(TodayParties(ps, today), today, today + DayMs);
  }

  /** The seven day counts, built newest first (offset 0 is today) and then
      reversed. A day runs from its midnight to 23:59:59.999 inclusive, which
      on integer milliseconds is the half-open day. */
  function DailyCounts(ps: seq<Party>, today: int): (ds: seq<nat>)
    ensures |ds| == 7
  {
    var byOffset := seq(7, k requires 0 <= k < 7 => CountCreatedIn(ps, today - k * DayMs, today - k * DayMs + DayMs));
    seq(7, i requires 0 <= i < 7 => byOffset[6 - i])
  }

  /** After the reversal the days run oldest first: they are the seven
      consecutive days ending today, and together they count the parties of
      that week. */
  lemma DailyCountsOldestFirst(ps: seq<Party>, today: int)
    ensures DailyCounts(ps, today) == Windows(ps, today - 6 * DayMs, DayMs, 7)
    ensures Sum(DailyCounts(ps, today)) == CountCreatedIn(ps, today - 6 * DayMs, today + DayMs)
  {
    var d, w := DailyCounts(ps, today), Windows(ps, today - 6 * DayMs, DayMs, 7);
    forall i | 0 <= i < 7 ensures d[i] == w[i] {
      WindowAt(ps, today - 6 * DayMs, DayMs, 7, i);
    }
    WindowsSum(ps, today - 6 * DayMs, DayMs, 7);
  }

  /** `reduce((max, cur) => cur.count > max.count ? cur : max)`: the first
      index holding the largest count. */
  function PeakIndex(s: seq<int>): (k: nat)
    requires |s| > 0
    ensures k < |s|
    ensures forall i :: 0 <= i < |s| ==> s[i] <= s[k]
    ensures forall i :: 0 <= i < k ==> s[i] < s[k]
  {
    if |s| == 1 then 0
    else
      var k := PeakIndex(s[..|s| - 1]);
      assert forall i :: 0 <= i < |s| - 1 ==> s[..|s| - 1][i] == s[i];
      if s[|s| - 1] > s[k] then |s| - 1 else k
  }

  /** `hh:00`, the hour padded to two digits. */
  function HourLabel(h: nat): (hh: string)
    requires h < 24
    ensures |hh| == 5 && hh[2..] == ":00" && hh != "N/A"
    ensures hh[0] == DigitChar(h / 10) && hh[1] == DigitChar(h % 10)
  {
    [DigitChar(h / 10), DigitChar(h % 10)] + ":00"
  }

  const DayNames: seq<string> := ["Dom", "Lun", "Mar", "Mié", "Jue", "Vie", "Sáb"]

  /** The label of the peak hour: `N/A` exactly when no party came today,
      otherwise the earliest hour with the largest count. */
  function PeakHour(ps: seq<Party>, today: int): (peak: string)
    ensures var hs := HourlyCounts(ps, today);
      && (peak == "N/A" <==> forall h :: 0 <= h < 24 ==> hs[h] == 0)
      && (peak != "N/A" ==>
            var k := PeakIndex(hs);
            && peak == HourLabel(k)
            && (forall g :: 0 <= g < 24 ==> hs[g] <= hs[k])
            && (forall g :: 0 <= g < k ==> hs[g] < hs[k]))
  {
    var hs := HourlyCounts(ps, today);
    var k := PeakIndex(hs);
    if hs[k] > 0 then HourLabel(k) else "N/A"
  }

  /** `dayNames[day.getDay()]` for a day whose weekday is d modulo 7. */
  function DayName(d: int): (name: string)
    ensures name == DayNames[d % 7] && name != "N/A"
  {
    var i := d % 7;
    assert DayNames[i] != "N/A" by {
      assert DayNames[i][0] != 'N';
    }
    DayNames[i]
  }

  /** The weekday name of the busiest of the seven days: `N/A` exactly when
      no party came in the seven days, otherwise the earliest, which after
      the reversal is the oldest, of the days with the largest count.
      `todayWeekday` is `getDay()` of today (0 is Sunday). */
  function BusiestDay(ps: seq<Party>, today: int, todayWeekday: int): (name: string)
    ensures var ds := DailyCounts(ps, today);
      && (name == "N/A" <==> forall i :: 0 <= i < 7 ==> ds[i] == 0)
      && (name != "N/A" ==>
            var k := PeakIndex(ds);
            && name == DayNames[(todayWeekday - (6 - k)) % 7]
            && (forall i :: 0 <= i < 7 ==> ds[i] <= ds[k])
            && (forall i :: 0 <= i < k ==> ds[i] < ds[k]))
  {
    var ds := DailyCounts(ps, today);
    var k := PeakIndex(ds);
    if ds[k] > 0 then DayName(todayWeekday - (6 - k)) else "N/A"
  }

  /** The history list's status for a state column value. */
  function StatusOf(state: string): (status: string)
    ensures state == "seated" <==> status == "served"
    ensures status in {"served", "no_show", "cancelled", "queued"}
  {
    if state == "seated" then "served"
    else if state == "no_show" then "no_show"
    else if state == "cancelled" then "cancelled"
    else "queued"
  }

  /** Over the states a party can be in, the `cancelled` status never
      appears: a canceled party is listed as `queued`, like a waiting one. */
  lemma CanceledListedAsQueued(s: PartyState)
    ensures StatusOf(StateName(s)) != "cancelled"
    ensures StatusOf(StateName(s)) == "queued" <==> s == Canceled || IsActive(s)
  {
  }

  datatype HistoryEntry = HistoryEntry(
    id: string,
    name: string,
    phone: string,
    size: int,
    joinedAt: int,
    servedAt: Option<int>,
    status: string,
    waitTime: int,
    notes: string)

  function ToEntry(p: Party): HistoryEntry
  {
    HistoryEntry(p.id, p.name, p.phone, p.size, p.createdAt,
                 if p.state == Seated then Some(p.updatedAt) else None,
                 StatusOf(StateName(p.state)), PartyWait(p),
                 if p.notes.Some? then p.notes.value else "")
  }

  /** One entry per party, in list order; an entry has a served time exactly
      when its party is seated, and then it is the party's last update. */
  function HistoryEntries(ps: seq<Party>): (es: seq<HistoryEntry>)
    ensures |es| == |ps|
    ensures forall i :: 0 <= i < |ps| ==>
      && es[i].id == ps[i].id
      && (es[i].servedAt.Some? <==> ps[i].state == Seated)
      && (es[i].servedAt.Some? ==> es[i].servedAt.value == ps[i].updatedAt)
      && (es[i].status == "served" <==> ps[i].state == Seated)
      && es[i].waitTime == PartyWait(ps[i])
  {
    seq(|ps|, i requires 0 <= i < |ps| => ToEntry(ps[i]))
  }

  datatype HistoryStats = HistoryStats(
    totalServed: int,
    noShows: int,
    cancelled: int,
    avgWaitTime: int,
    totalCustomers: int,
    peakHour: string,
    busiestDay: string)

  datatype HistoryCharts = HistoryCharts(hourly: seq<int>, daily: seq<int>, waitTimes: seq<int>)

  datatype HistoryResponse =
    | MissingRestaurant
    | FetchFailed
    | HistoryData(history: seq<HistoryEntry>, stats: HistoryStats, charts: HistoryCharts)

  /** The whole response for the fetched rows, or the two early errors. */
  function HistoryView(restaurantId: string, fetched: Option<seq<Party>>, today: int, todayWeekday: int): (r: HistoryResponse)
    ensures r == MissingRestaurant <==> restaurantId == ""
    ensures r.HistoryData? <==> restaurantId != "" && fetched.Some?
    ensures r.HistoryData? ==>
      && |r.history| == r.stats.totalCustomers == |fetched.value|
      && |r.charts.hourly| == 24 && |r.charts.daily| == 7 && |r.charts.waitTimes| == 5
      && r.stats.totalServed == |Served(fetched.value)|
  {
    if restaurantId == "" then MissingRestaurant
    else if fetched.None? then FetchFailed
    else
      var ps := fetched.value;
      HistoryData(
        HistoryEntries(ps),
        HistoryStats(CountState(ps, "seated"), CountState(ps, "no_show"), CountState(ps, "cancelled"),
                     AvgWaitTime(ps), |ps|, PeakHour(ps, today), BusiestDay(ps, today, todayWeekday)),
        HistoryCharts(HourlyCounts(ps, today), DailyCounts(ps, today), WaitBuckets(Served(ps))))
  }

  /** The handler: the histogram by its counting loop, the rest as
      `HistoryView` specifies. `fetched` is the party query's rows (`None`
      when it fails). */
  method GetHistory(restaurantId: string, fetched: Option<seq<Party>>, today: int, todayWeekday: int)
    returns (r: HistoryResponse)
    ensures r == HistoryView(restaurantId, fetched, today, todayWeekday)
    ensures r.HistoryData? ==> Sum(r.charts.waitTimes) == r.stats.totalServed && r.stats.cancelled == 0
  {
    if restaurantId == "" {
      return MissingRestaurant;
    }
    if fetched.None? {
      return FetchFailed;
    }
    var ps := fetched.value;
    var waitTimes := CountWaitBuckets(ps);
    CancelledCountIsAlwaysZero(ps);
    r := HistoryData(
      HistoryEntries(ps),
      HistoryStats(CountState(ps, "seated"), CountState(ps, "no_show"), CountState(ps, "cancelled"),
                   AvgWaitTime(ps), |ps|, PeakHour(ps, today), BusiestDay(ps, today, todayWeekday)),
      HistoryCharts(HourlyCounts(ps, today), DailyCounts(ps, today), waitTimes));
  }
}
