/** The emissions corpus: an immutable, ordered sequence of records, and
    the derived values that both the server and the dashboard compute from
    it. */
module Records {

  /** One observation: a country, a sector, a year and the emissions in
      MtCO₂e. Records have no identity other than their position. */
  datatype Record = Record(country: string, sector: string, year: int, emissions: real)

  /** Total emissions, folded from the left starting at 0, as
      `data.reduce((sum, d) => sum + d.emissions, 0)` does. */
  function Total(s: seq<Record>): real
  {
    if s == [] then 0.0 else Total(s[..|s| - 1]) + s[|s| - 1].emissions
  }

  /** Total emissions of the records of one sector. */
  function SectorSum(s: seq<Record>, sector: string): real
  {
    if s == [] then 0.0
    else SectorSum(s[..|s| - 1], sector) + (if s[|s| - 1].sector == sector then s[|s| - 1].emissions else 0.0)
  }

  /** `data.map((d) => d.country)` */
  function CountryColumn(s: seq<Record>): (c: seq<string>)
    ensures |c| == |s| && forall i :: 0 <= i < |s| ==> c[i] == s[i].country
  {
    seq(|s|, i requires 0 <= i < |s| => s[i].country)
  }

  /** `data.map((d) => d.sector)` */
  function SectorColumn(s: seq<Record>): (c: seq<string>)
    ensures |c| == |s| && forall i :: 0 <= i < |s| ==> c[i] == s[i].sector
  {
    seq(|s|, i requires 0 <= i < |s| => s[i].sector)
  }

  /** `data.map((d) => d.year)` */
  function YearColumn(s: seq<Record>): (c: seq<int>)
    ensures |c| == |s| && forall i :: 0 <= i < |s| ==> c[i] == s[i].year
  {
    seq(|s|, i requires 0 <= i < |s| => s[i].year)
  }

  predicate NoDuplicates<T(==)>(s: seq<T>)
  {
    forall i, j :: 0 <= i < j < |s| ==> s[i] != s[j]
  }

  /** The elements of `new Set(s)` in iteration order: each distinct value
      once, placed where it was first inserted. */
  function Distinct<T(==)>(s: seq<T>): (d: seq<T>)
    ensures NoDuplicates(d)
    ensures |d| <= |s|
  {
    if s == [] then []
    else
      var d := Distinct(s[..|s| - 1]);
      if s[|s| - 1] in d then d else d + [s[|s| - 1]]
  }

  /** Every value of `s`, and nothing else, is listed. */
  lemma {:induction false} DistinctMembership<T>(s: seq<T>, x: T)
    ensures x in Distinct(s) <==> x in s
  {
    if s != [] {
      var n := |s| - 1;
      DistinctMembership(s[..n], x);
      assert s == s[..n] + [s[n]];
    }
  }

  /** Distinct values are listed in order of first occurrence: wherever a
      value listed later occurs in `s`, every value listed before it has
      already occurred. */
  lemma {:induction false} DistinctFirstOccurrenceOrder<T>(s: seq<T>, i: nat, j: nat, q: nat)
    requires i < j < |Distinct(s)| && q < |s| && s[q] == Distinct(s)[j]
    ensures Distinct(s)[i] in s[..q]
  {
    var n := |s| - 1;
    var s' := s[..n];
    var d' := Distinct(s');
    assert s == s' + [s[n]];
    if q < n {
      assert s'[q] == s[q];
      assert s'[..q] == s[..q];
      if s[n] !in d' && j == |d'| {
        // Distinct(s)[j] would be s[n], which does not occur in s'
        DistinctMembership(s', s[n]);
        assert false;
      } else {
        DistinctFirstOccurrenceOrder(s', i, j, q);
      }
    } else {
      assert s[..q] == s';
      assert Distinct(s)[i] in d';
      DistinctMembership(s', Distinct(s)[i]);
    }
  }

  /** A value listed no later than the value at position `q` of `s` has
      occurred by position `q`. */
  lemma {:induction false} ListedEarlierOccursEarlier<T>(s: seq<T>, i: nat, j: nat, q: nat)
    requires i <= j < |Distinct(s)| && q < |s| && s[q] == Distinct(s)[j]
    ensures Distinct(s)[i] in s[..q + 1]
  {
    if i < j {
      DistinctFirstOccurrenceOrder(s, i, j, q);
      assert s[..q] <= s[..q + 1];
    } else {
      assert s[..q + 1][q] == s[q];
    }
  }
}
