/** The dashboard's sort controls (app/dashboard/page.tsx): the two-field
    sort state `handleSort` updates, and `getSortedParties`, a stable sort of
    a copy of the live queue by the chosen key and direction. */
module Dashboard {
  import opened Common
  import opened Types
  import opened Queue

  datatype SortKey = ByPosition | ByEta | ByName | BySize

  datatype SortOrder = Asc | Desc

  datatype SortState = SortState(key: SortKey, order: SortOrder)

  function Toggled(o: SortOrder): (t: SortOrder)
    ensures t != o
  {
    if o == Asc then Desc else Asc
  }

  /** `handleSort`: the current key flips the direction, another key is
      selected in ascending order. */
  function NextSort(st: SortState, newKey: SortKey): (r: SortState)
    ensures r.key == newKey
    ensures st.key == newKey ==> r.order == Toggled(st.order) && r.order != st.order
    ensures st.key != newKey ==> r.order == Asc
  {
    if st.key == newKey then SortState(st.key, Toggled(st.order)) else SortState(newKey, Asc)
  }

  /** Clicking the same header twice restores the state when it was already
      the sort key, and otherwise leaves that key sorted descending. */
  lemma SortTwice(st: SortState, k: SortKey)
    ensures st.key == k ==> NextSort(NextSort(st, k), k) == st
    ensures st.key != k ==> NextSort(NextSort(st, k), k) == SortState(k, Desc)
  {
  }

  /** `a.name.localeCompare(b.name)`, as the code-point order of the two
      names: negative, zero or positive. */
  function NameCompare(a: string, b: string): (c: int)
    ensures -1 <= c <= 1
  {
    if a == [] && b == [] then 0
    else if a == [] then -1
    else if b == [] then 1
    else if a[0] < b[0] then -1
    else if a[0] > b[0] then 1
    else NameCompare(a[1..], b[1..])
  }

  lemma {:induction false} NameCompareAntisymmetric(a: string, b: string)
    ensures NameCompare(a, b) == -NameCompare(b, a)
    ensures NameCompare(a, b) == 0 <==> a == b
  {
    if a != [] && b != [] && a[0] == b[0] {
      NameCompareAntisymmetric(a[1..], b[1..]);
      if a[1..] == b[1..] {
        assert a == [a[0]] + a[1..] && b == [b[0]] + b[1..];
      }
    }
  }

  lemma {:induction false} NameCompareTransitive(a: string, b: string, c: string)
    requires NameCompare(a, b) <= 0 && NameCompare(b, c) <= 0
    ensures NameCompare(a, c) <= 0
  {
    if a != [] && b != [] && c != [] && a[0] == b[0] && b[0] == c[0] {
      NameCompareTransitive(a[1..], b[1..], c[1..]);
    }
  }

  /** The comparator's `comparison` for the key. */
  function KeyCompare(key: SortKey, a: QueueEntry, b: QueueEntry): int
  {
    match key
    case ByPosition => a.position - b.position
    case ByEta => a.etaMinutes - b.etaMinutes
    case ByName => NameCompare(a.party.name, b.party.name)
    case BySize => a.party.size - b.party.size
  }

  /** The comparator handed to `sort`: negated in descending order. */
  function Compare(st: SortState, a: QueueEntry, b: QueueEntry): int
  {
    if st.order == Asc then KeyCompare(st.key, a, b) else -KeyCompare(st.key, a, b)
  }

  /** `a` may stand before `b`. */
  predicate Leq(st: SortState, a: QueueEntry, b: QueueEntry)
  {
    Compare(st, a, b) <= 0
  }

  /** The comparator is consistent: swapping its arguments negates it, so it
      is total, and it is transitive. */
  lemma CompareIsConsistent(st: SortState, a: QueueEntry, b: QueueEntry, c: QueueEntry)
    ensures Compare(st, a, b) == -Compare(st, b, a)
    ensures Leq(st, a, b) || Leq(st, b, a)
    ensures Leq(st, a, b) && Leq(st, b, c) ==> Leq(st, a, c)
    ensures Compare(st, a, c) == 0 && Compare(st, b, c) == 0 ==> Compare(st, a, b) == 0
  {
    NameCompareAntisymmetric(a.party.name, b.party.name);
    NameCompareAntisymmetric(a.party.name, c.party.name);
    NameCompareAntisymmetric(b.party.name, c.party.name);
    if st.key == ByName {
      if Leq(st, a, b) && Leq(st, b, c) {
        if st.order == Asc {
          NameCompareTransitive(a.party.name, b.party.name, c.party.name);
        } else {
          NameCompareTransitive(c.party.name, b.party.name, a.party.name);
        }
      }
    }
  }

  /** Insert `x` into a sorted list behind every element that may stand
      before it. */
  function Insert(st: SortState, x: QueueEntry, t: seq<QueueEntry>): (r: seq<QueueEntry>)
    ensures multiset(r) == multiset(t) + multiset{x}
    ensures |r| == |t| + 1
  {
    if t == [] then [x]
    else if Leq(st, t[|t| - 1], x) then t + [x]
    else
      assert t == t[..|t| - 1] + [t[|t| - 1]];
      Insert(st, x, t[..|t| - 1]) + [t[|t| - 1]]
  }

  /** `[...parties].sort(comparator)`: a stable sort of a copy. The input
      value itself is never changed. */
  function SortedParties(st: SortState, s: seq<QueueEntry>): (r: seq<QueueEntry>)
    ensures multiset(r) == multiset(s)
  {
    if s == [] then []
    else
      assert s == s[..|s| - 1] + [s[|s| - 1]];
      Insert(st, s[|s| - 1], SortedParties(st, s[..|s| - 1]))
  }

  ghost predicate Sorted(st: SortState, r: seq<QueueEntry>)
  {
    forall i, j :: 0 <= i < j < |r| ==> Leq(st, r[i], r[j])
  }

  lemma SortedSnoc(st: SortState, t: seq<QueueEntry>, x: QueueEntry)
    requires Sorted(st, t)
    requires forall i :: 0 <= i < |t| ==> Leq(st, t[i], x)
    ensures Sorted(st, t + [x])
  {
    var r := t + [x];
    forall i, j | 0 <= i < j < |r| ensures Leq(st, r[i], r[j]) {
      if j < |t| {
        assert r[i] == t[i] && r[j] == t[j];
      } else {
        assert r[i] == t[i] && r[j] == x;
      }
    }
  }

  lemma {:induction false} InsertSorted(st: SortState, x: QueueEntry, t: seq<QueueEntry>)
    requires Sorted(st, t)
    ensures Sorted(st, Insert(st, x, t))
    decreases |t|
  {
    if t != [] {
      var last := t[|t| - 1];
      if Leq(st, last, x) {
        forall i | 0 <= i < |t| ensures Leq(st, t[i], x) {
          if i < |t| - 1 {
            CompareIsConsistent(st, t[i], last, x);
          }
        }
        SortedSnoc(st, t, x);
      } else {
        var p := t[..|t| - 1];
        assert Sorted(st, p);
        InsertSorted(st, x, p);
        var q := Insert(st, x, p);
        CompareIsConsistent(st, last, x, x);
        forall i | 0 <= i < |q| ensures Leq(st, q[i], last) {
          assert q[i] in multiset(q);
          if q[i] != x {
            assert q[i] in multiset(p);
            var k :| 0 <= k < |p| && p[k] == q[i];
            assert t[k] == p[k];
          }
        }
        SortedSnoc(st, q, last);
      }
    }
  }

  /** In ascending order the result never decreases by the key, in
      descending order it never increases: every earlier element may stand
      before every later one. */
  lemma {:induction false} SortedPartiesIsSorted(st: SortState, s: seq<QueueEntry>)
    ensures Sorted(st, SortedParties(st, s))
    decreases |s|
  {
    if s != [] {
      SortedPartiesIsSorted(st, s[..|s| - 1]);
      InsertSorted(st, s[|s| - 1], SortedParties(st, s[..|s| - 1]));
    }
  }

  /** The elements of a list that compare equal to `x`, in order. */
  function EqualTo(st: SortState, x: QueueEntry, s: seq<QueueEntry>): seq<QueueEntry>
  {
    if s == [] then []
    else EqualTo(st, x, s[..|s| - 1]) + (if Compare(st, s[|s| - 1], x) == 0 then [s[|s| - 1]] else [])
  }

  lemma {:induction false} EqualToSnoc(st: SortState, x: QueueEntry, s: seq<QueueEntry>, y: QueueEntry)
    ensures EqualTo(st, x, s + [y]) == EqualTo(st, x, s) + (if Compare(st, y, x) == 0 then [y] else [])
  {
    assert (s + [y])[..|s + [y]| - 1] == s;
  }

  /** Inserting `y` appends it to its own class of equals and leaves every
      other class as it was. */
  lemma {:induction false} InsertKeepsEquals(st: SortState, x: QueueEntry, y: QueueEntry, t: seq<QueueEntry>)
    ensures EqualTo(st, x, Insert(st, y, t)) == EqualTo(st, x, t) + (if Compare(st, y, x) == 0 then [y] else [])
    decreases |t|
  {
    if t == [] {
      EqualToSnoc(st, x, [], y);
      assert [] + [y] == [y];
    } else {
      var last := t[|t| - 1];
      var p := t[..|t| - 1];
      if Leq(st, last, y) {
        EqualToSnoc(st, x, t, y);
      } else {
        var e := EqualTo(st, x, p);
        var ll: seq<QueueEntry> := if Compare(st, last, x) == 0 then [last] else [];
        var yy: seq<QueueEntry> := if Compare(st, y, x) == 0 then [y] else [];
        assert EqualTo(st, x, t) == e + ll;
        InsertKeepsEquals(st, x, y, p);
        EqualToSnoc(st, x, Insert(st, y, p), last);
        assert EqualTo(st, x, Insert(st, y, t)) == e + yy + ll;
        if yy == [] {
          assert e + yy + ll == e + ll + yy;
        } else {
          // last stands strictly after y, so it is not equal to x
          CompareIsConsistent(st, last, y, x);
          assert ll == [];
          assert e + yy + ll == e + ll + yy;
        }
      }
    }
  }

  /** Stability: elements that compare equal keep their input order, in
      both directions. */
  lemma {:induction false} SortIsStable(st: SortState, s: seq<QueueEntry>, x: QueueEntry)
    ensures EqualTo(st, x, SortedParties(st, s)) == EqualTo(st, x, s)
    decreases |s|
  {
    if s != [] {
      var p, y := s[..|s| - 1], s[|s| - 1];
      SortIsStable(st, p, x);
      InsertKeepsEquals(st, x, y, SortedParties(st, p));
      assert SortedParties(st, s) == Insert(st, y, SortedParties(st, p));
    }
  }

  /** The page's sort state. */
  class SortControls {
    var sortBy: SortKey
    var sortOrder: SortOrder

    constructor ()
      ensures sortBy == ByPosition && sortOrder == Asc
    {
      sortBy := ByPosition;
      sortOrder := Asc;
    }

    function State(): SortState
      reads this
    {
      SortState(sortBy, sortOrder)
    }

    method HandleSort(newKey: SortKey)
      modifies this
      ensures State() == NextSort(old(State()), newKey)
    {
      if sortBy == newKey {
        sortOrder := if sortOrder == Asc then Desc else Asc;
      } else {
        sortBy := newKey;
        sortOrder := Asc;
      }
    }

    /** `getSortedParties`: the live queue, sorted by the current state. */
    method GetSortedParties(parties: seq<QueueEntry>) returns (sorted: seq<QueueEntry>)
      ensures sorted == SortedParties(State(), parties)
      ensures multiset(sorted) == multiset(parties) && Sorted(State(), sorted)
    {
      sorted := SortedParties(State(), parties);
      SortedPartiesIsSorted(State(), parties);
    }
  }
}
