/** The live queue view (app/api/queue/route.ts): the parties the store
    returns, numbered by position, with their wait and displayed ETA, and the
    two live statistics. */
module Queue {
  import opened Common
  import opened Types

  const MsPerMinute := 60000

  datatype QueueEntry = QueueEntry(
    party: Party,
    position: int,
    etaMinutes: int,
    waitTimeMinutes: int)

  datatype QueueStats = QueueStats(waiting: int, avgWaitMinutes: int)

  /** The rows the parties query returns: those in a non-terminal state, in
      the order the store delivered them. */
  function Listed(ps: seq<Party>): (r: seq<Party>)
    ensures forall p :: p in r <==> p in ps && IsActive(p.state)
    ensures |r| <= |ps|
  {
    if ps == [] then []
    else if IsActive(ps[0].state) then [ps[0]] + Listed(ps[1..])
    else Listed(ps[1..])
  }

  lemma {:induction false} ListedConcat(a: seq<Party>, b: seq<Party>)
    ensures Listed(a + b) == Listed(a) + Listed(b)
  {
    if a == [] {
      assert a + b == b;
    } else {
      assert (a + b)[1..] == a[1..] + b;
      ListedConcat(a[1..], b);
    }
  }

  ghost predicate SortedByCreation(ps: seq<Party>)
  {
    forall i, j :: 0 <= i < j < |ps| ==> ps[i].createdAt <= ps[j].createdAt
  }

  /** A lower bound on the creation times of a list bounds those it lists. */
  lemma {:induction false} ListedAbove(t: seq<Party>, c: int)
    requires forall i :: 0 <= i < |t| ==> c <= t[i].createdAt
    ensures forall i :: 0 <= i < |Listed(t)| ==> c <= Listed(t)[i].createdAt
  {
    if t != [] {
      var u := t[1..];
      ListedAbove(u, c);
      if IsActive(t[0].state) {
        var r := Listed(t);
        assert r == [t[0]] + Listed(u);
        forall i | 0 <= i < |r|
          ensures c <= r[i].createdAt
        {
          if i > 0 {
            assert r[i] == Listed(u)[i - 1];
          }
        }
      }
    }
  }

  /** Filtering keeps the store's ascending `created_at` order. */
  lemma {:induction false} ListedKeepsOrder(ps: seq<Party>)
    requires SortedByCreation(ps)
    ensures SortedByCreation(Listed(ps))
  {
    if ps != [] {
      var t := ps[1..];
      ListedKeepsOrder(t);
      if IsActive(ps[0].state) {
        ListedAbove(t, ps[0].createdAt);
        var r := Listed(ps);
        var l := Listed(t);
        assert r == [ps[0]] + l;
        forall i, j | 0 <= i < j < |r|
          ensures r[i].createdAt <= r[j].createdAt
        {
          assert r[j] == l[j - 1];
          if i > 0 {
            assert r[i] == l[i - 1];
          }
        }
      }
    }
  }

  /** Whole minutes elapsed since creation, rounded down and not clamped: the
      value is negative when `createdAt` lies in the future. */
  function WaitMinutes(createdAt: int, now: int): (w: int)
    ensures w * MsPerMinute <= now - createdAt < (w + 1) * MsPerMinute
    ensures w < 0 <==> createdAt > now
  {
    FloorDiv(now - createdAt, MsPerMinute)
  }

  /** `party.eta_minutes || Math.max(0, wait)`: the stored estimate unless it
      is absent or zero, in which case the elapsed wait, never below zero. */
  function DisplayedEta(stored: Option<int>, wait: int): (e: int)
    ensures stored.Some? && stored.value != 0 ==> e == stored.value
    ensures (stored.None? || stored.value == 0) ==> e >= 0 && e >= wait && (e == 0 || e == wait)
  {
    if stored.Some? && stored.value != 0 then stored.value else Max(0, wait)
  }

  function Entry(p: Party, position: int, now: int): QueueEntry
  {
    var wait := WaitMinutes(p.createdAt, now);
    QueueEntry(p, position, DisplayedEta(p.etaMinutes, wait), wait)
  }

  /** `parties.map((party, index) => ...)`: the party at 0-based index i gets
      position i + 1. */
  function BuildQueue(ps: seq<Party>, now: int): (q: seq<QueueEntry>)
    ensures |q| == |ps|
    ensures forall i :: 0 <= i < |q| ==> q[i] == Entry(ps[i], i + 1, now)
  {
    seq(|ps|, i requires 0 <= i < |ps| => Entry(ps[i], i + 1, now))
  }

  function Etas(q: seq<QueueEntry>): (s: seq<int>)
    ensures |s| == |q| && forall i :: 0 <= i < |q| ==> s[i] == q[i].etaMinutes
  {
    if q == [] then [] else [q[0].etaMinutes] + Etas(q[1..])
  }

  /** `Math.round(sum of displayed ETAs / n)`, or 0 for an empty queue. Every
      displayed ETA is a number, so `eta || 0` is the ETA itself. */
  function AvgWait(q: seq<QueueEntry>): (avg: int)
    ensures |q| == 0 ==> avg == 0
    ensures |q| > 0 ==> NearestQuotient(avg, Sum(Etas(q)), |q|)
  {
    if |q| > 0 then RoundDiv(Sum(Etas(q)), |q|) else 0
  }

  function Stats(q: seq<QueueEntry>): QueueStats
  {
    QueueStats(|q|, AvgWait(q))
  }

  datatype QueueResponse = QueueResponse(parties: seq<QueueEntry>, stats: QueueStats)

  /** The whole derivation: listing, positions, statistics. Positions are
      exactly 1..n with no gaps, in listing order, and `waiting` is the
      number listed. */
  function QueueView(ps: seq<Party>, now: int): (r: QueueResponse)
    ensures r.stats.waiting == |r.parties| == |Listed(ps)|
    ensures forall i :: 0 <= i < |r.parties| ==>
      r.parties[i].position == i + 1 && r.parties[i].party == Listed(ps)[i]
    ensures |r.parties| == 0 ==> r.stats.avgWaitMinutes == 0
    ensures |r.parties| > 0 ==> NearestQuotient(r.stats.avgWaitMinutes, Sum(Etas(r.parties)), |r.parties|)
  {
    var q := BuildQueue(Listed(ps), now);
    QueueResponse(q, Stats(q))
  }

  /** The view holds an entry exactly for each party in a non-terminal
      state; with `QueueView`'s contract, their positions are 1..n. */
  lemma PositionsAreOneToN(ps: seq<Party>, now: int)
    ensures var r := QueueView(ps, now);
      (forall p :: p in ps && IsActive(p.state) <==>
            exists i :: 0 <= i < |r.parties| && r.parties[i].party == p)
  {
    var L := Listed(ps);
    var q := BuildQueue(L, now);
    forall p | p in ps && IsActive(p.state)
      ensures exists i :: 0 <= i < |q| && q[i].party == p
    {
      var i :| 0 <= i < |L| && L[i] == p;
      assert q[i].party == p;
    }
  }

  /** A non-empty queue's average lies between its smallest and its largest
      displayed ETA. */
  lemma AverageBetweenExtremes(q: seq<QueueEntry>, lo: int, hi: int)
    requires |q| > 0
    requires forall i :: 0 <= i < |q| ==> lo <= q[i].etaMinutes <= hi
    ensures lo <= AvgWait(q) <= hi
  {
    SumBounds(Etas(q), lo, hi);
    RoundDivBetween(Sum(Etas(q)), |q|, lo, hi);
  }

  /** Dropping the party at index k keeps the others in order; those before it
      keep their position and each one after it moves up by exactly one. */
  lemma RemovalShiftsPositions(ps: seq<Party>, k: nat, now: int)
    requires k < |ps|
    ensures var q, q' := BuildQueue(ps, now), BuildQueue(ps[..k] + ps[k + 1..], now);
      && |q'| == |q| - 1
      && (forall i :: 0 <= i < k ==> q'[i] == q[i])
      && (forall i :: k < i < |q| ==>
            q'[i - 1].party == q[i].party && q'[i - 1].position == q[i].position - 1
            && q'[i - 1].etaMinutes == q[i].etaMinutes)
  {
    var ps' := ps[..k] + ps[k + 1..];
    forall i | 0 <= i < k
      ensures ps'[i] == ps[i]
    {
    }
    forall i | k < i < |ps|
      ensures ps'[i - 1] == ps[i]
    {
    }
  }

  /** Listing around one row: an active row stays, a terminal one drops out. */
  lemma ListedAround(ps: seq<Party>, k: nat, p: Party)
    requires k < |ps|
    ensures Listed(ps[k := p]) == Listed(ps[..k]) + Listed([p]) + Listed(ps[k + 1..])
  {
    var ps' := ps[k := p];
    assert ps' == ps[..k] + [p] + ps[k + 1..];
    ListedConcat(ps[..k] + [p], ps[k + 1..]);
    ListedConcat(ps[..k], [p]);
  }

  /** Moving a listed party into a terminal state removes exactly its entry
      from the view: the others keep their relative order and every later one
      moves up one position. */
  lemma TerminalTransitionShiftsQueue(ps: seq<Party>, k: nat, s: PartyState, now: int)
    requires k < |ps| && IsActive(ps[k].state) && !IsActive(s)
    ensures var j := |Listed(ps[..k])|;
      var q, q' := BuildQueue(Listed(ps), now), BuildQueue(Listed(ps[k := ps[k].(state := s)]), now);
      && j < |q| && q[j].party == ps[k]
      && |q'| == |q| - 1
      && (forall i :: 0 <= i < j ==> q'[i] == q[i])
      && (forall i :: j < i < |q| ==>
            q'[i - 1].party == q[i].party && q'[i - 1].position == q[i].position - 1)
  {
    var A, B := Listed(ps[..k]), Listed(ps[k + 1..]);
    var p' := ps[k].(state := s);
    ListedAround(ps, k, ps[k]);
    assert ps[k := ps[k]] == ps;
    ListedAround(ps, k, p');
    assert Listed([ps[k]]) == [ps[k]];
    assert Listed([p']) == [];
    var L := Listed(ps);
    assert L == A + [ps[k]] + B;
    assert L[..|A|] == A && L[|A| + 1..] == B;
    assert Listed(ps[k := p']) == L[..|A|] + L[|A| + 1..];
    RemovalShiftsPositions(L, |A|, now);
  }
}
